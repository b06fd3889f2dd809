/**
 * The seven preference vocabularies (`Budget`, `Pace`, `Interest`,
 * `AccommodationStyle`, `Transport`, `FoodPreference`, `Season`), each with
 * the display name the prompt builder prints for it.
 */
module Enums {

  /**
   * What makes a display name safe to print in a comma-separated prompt
   * line: not empty, no comma or line break, and not ending in a space.
   */
  predicate Printable(name: string) {
    |name| > 0 && name[|name| - 1] != ' ' && ',' !in name && '\n' !in name
  }

  datatype Budget = Budget | Moderate | Luxury {
    function DisplayName(): (r: string)
      ensures Printable(r)
    {
      match this
      case Budget => "Budget"
      case Moderate => "Moderate"
      case Luxury => "Luxury"
    }
  }

  datatype Pace = Relaxed | Moderate | FastPaced {
    function DisplayName(): (r: string)
      ensures Printable(r)
    {
      match this
      case Relaxed => "Relaxed"
      case Moderate => "Moderate"
      case FastPaced => "Fast-paced"
    }
  }

  datatype Interest = Culture | Nature | Sports | Gastronomy | Adventure | Relaxation | History | Nightlife {
    function DisplayName(): (r: string)
      ensures Printable(r)
    {
      match this
      case Culture => "Culture"
      case Nature => "Nature"
      case Sports => "Sports"
      case Gastronomy => "Gastronomy"
      case Adventure => "Adventure"
      case Relaxation => "Relaxation"
      case History => "History"
      case Nightlife => "Nightlife"
    }
  }

  datatype AccommodationStyle = Hotel | Hostel | Apartment | Camping | BedAndBreakfast | Resort {
    function DisplayName(): (r: string)
      ensures Printable(r)
    {
      match this
      case Hotel => "Hotel"
      case Hostel => "Hostel"
      case Apartment => "Apartment"
      case Camping => "Camping"
      case BedAndBreakfast => "Bed & Breakfast"
      case Resort => "Resort"
    }
  }

  datatype Transport = Car | Train | Plane | Bus | Bike | Walking {
    function DisplayName(): (r: string)
      ensures Printable(r)
    {
      match this
      case Car => "Car"
      case Train => "Train"
      case Plane => "Plane"
      case Bus => "Bus"
      case Bike => "Bike"
      case Walking => "Walking"
    }
  }

  datatype FoodPreference = LocalCuisine | International | FastFood | Vegetarian | Vegan | StreetFood | FineDining {
    function DisplayName(): (r: string)
      ensures Printable(r)
    {
      match this
      case LocalCuisine => "Local Cuisine"
      case International => "International"
      case FastFood => "Fast Food"
      case Vegetarian => "Vegetarian"
      case Vegan => "Vegan"
      case StreetFood => "Street Food"
      case FineDining => "Fine Dining"
    }
  }

  datatype Season = Spring | Summer | Autumn | Winter | Any {
    function DisplayName(): (r: string)
      ensures Printable(r)
    {
      match this
      case Spring => "Spring"
      case Summer => "Summer"
      case Autumn => "Autumn"
      case Winter => "Winter"
      case Any => "Any Season"
    }
  }

  /** Within each vocabulary, distinct values print differently. */
  lemma DisplayNamesDistinct()
    ensures forall a: Budget, b: Budget :: a.DisplayName() == b.DisplayName() ==> a == b
    ensures forall a: Pace, b: Pace :: a.DisplayName() == b.DisplayName() ==> a == b
    ensures forall a: Interest, b: Interest :: a.DisplayName() == b.DisplayName() ==> a == b
    ensures forall a: AccommodationStyle, b: AccommodationStyle :: a.DisplayName() == b.DisplayName() ==> a == b
    ensures forall a: Transport, b: Transport :: a.DisplayName() == b.DisplayName() ==> a == b
    ensures forall a: FoodPreference, b: FoodPreference :: a.DisplayName() == b.DisplayName() ==> a == b
    ensures forall a: Season, b: Season :: a.DisplayName() == b.DisplayName() ==> a == b
  {
  }
}
