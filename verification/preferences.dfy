/**
 * The `TravelPreferences` record: seven categories, four single-valued and
 * three set-valued, owned by one user. A Java setter is Dafny's record
 * update (`p.(budget := b)`), which changes only the named field.
 */
module Preferences {
  import opened Wrappers
  import opened Enums
  import opened Seqs

  /**
   * A stored or submitted preference record. `None` is Java's `null`; a
   * set-valued category is held as the sequence its `HashSet` iterates in.
   */
  datatype Preferences = Preferences(
    id: Option<int>,
    userId: Option<string>,
    budget: Option<Budget>,
    pace: Option<Pace>,
    interests: Option<seq<Interest>>,
    accommodationStyle: Option<AccommodationStyle>,
    transport: Option<seq<Transport>>,
    foodPreferences: Option<seq<FoodPreference>>,
    season: Option<Season>)

  /** The seven categories, in the order the completeness count and the prompt visit them. */
  datatype Category =
    | BudgetCategory
    | PaceCategory
    | InterestsCategory
    | AccommodationCategory
    | TransportCategory
    | FoodCategory
    | SeasonCategory

  const AllCategories: seq<Category> := [
    BudgetCategory, PaceCategory, InterestsCategory, AccommodationCategory,
    TransportCategory, FoodCategory, SeasonCategory]

  /** A set-valued category counts only when it is present and has a member. */
  predicate NonEmpty<T>(s: Option<seq<T>>) {
    s.Some? && |s.value| > 0
  }

  predicate IsFilled(p: Preferences, c: Category) {
    match c
    case BudgetCategory => p.budget.Some?
    case PaceCategory => p.pace.Some?
    case InterestsCategory => NonEmpty(p.interests)
    case AccommodationCategory => p.accommodationStyle.Some?
    case TransportCategory => NonEmpty(p.transport)
    case FoodCategory => NonEmpty(p.foodPreferences)
    case SeasonCategory => p.season.Some?
  }

  /** The filled test as a value, so that every use refers to the same function. */
  function FilledTest(p: Preferences): Category -> bool {
    c => IsFilled(p, c)
  }

  /** The filled categories among `cs`, keeping their order. */
  function FilledAmong(p: Preferences, cs: seq<Category>): (r: seq<Category>)
    ensures |r| <= |cs|
    ensures forall c :: c in r <==> c in cs && IsFilled(p, c)
    ensures forall i :: 0 <= i < |r| ==> IsFilled(p, r[i])
  {
    Keep(cs, FilledTest(p))
  }

  /** The filled categories of a record, in the fixed category order. */
  function FilledCategories(p: Preferences): seq<Category> {
    FilledAmong(p, AllCategories)
  }

  /** The seven-step tally `hasMinimumPreferences` performs. */
  function FilledCount(p: Preferences): nat {
    (if p.budget.Some? then 1 else 0)
    + (if p.pace.Some? then 1 else 0)
    + (if NonEmpty(p.interests) then 1 else 0)
    + (if p.accommodationStyle.Some? then 1 else 0)
    + (if NonEmpty(p.transport) then 1 else 0)
    + (if NonEmpty(p.foodPreferences) then 1 else 0)
    + (if p.season.Some? then 1 else 0)
  }

  /** One for a filled category, zero otherwise. */
  function Indicator(p: Preferences, c: Category): nat {
    if IsFilled(p, c) then 1 else 0
  }

  /** The tally is the sum of the seven category indicators. */
  lemma FilledCountAsIndicators(p: Preferences)
    ensures FilledCount(p) == Indicator(p, BudgetCategory) + Indicator(p, PaceCategory)
      + Indicator(p, InterestsCategory) + Indicator(p, AccommodationCategory)
      + Indicator(p, TransportCategory) + Indicator(p, FoodCategory) + Indicator(p, SeasonCategory)
  {
  }

  lemma FilledAmongCons(p: Preferences, c: Category, cs: seq<Category>)
    ensures |FilledAmong(p, [c] + cs)| == Indicator(p, c) + |FilledAmong(p, cs)|
  {
    assert ([c] + cs)[1..] == cs;
    assert Keep([c] + cs, FilledTest(p)) == (if IsFilled(p, c) then [c] else []) + Keep(cs, FilledTest(p));
  }

  /** The tally counts exactly the filled categories. */
  lemma FilledCountIsFilledCategories(p: Preferences)
    ensures FilledCount(p) == |FilledCategories(p)|
  {
    var s7: seq<Category> := [];
    var s6 := [SeasonCategory] + s7;
    var s5 := [FoodCategory] + s6;
    var s4 := [TransportCategory] + s5;
    var s3 := [AccommodationCategory] + s4;
    var s2 := [InterestsCategory] + s3;
    var s1 := [PaceCategory] + s2;
    var s0 := [BudgetCategory] + s1;
    assert s0 == AllCategories;
    FilledAmongCons(p, SeasonCategory, s7);
    FilledAmongCons(p, FoodCategory, s6);
    FilledAmongCons(p, TransportCategory, s5);
    FilledAmongCons(p, AccommodationCategory, s4);
    FilledAmongCons(p, InterestsCategory, s3);
    FilledAmongCons(p, PaceCategory, s2);
    FilledAmongCons(p, BudgetCategory, s1);
    FilledCountAsIndicators(p);
  }

  /** `new TravelPreferences()`: no owner yet, null single values, empty sets. */
  function Blank(): (p: Preferences)
    ensures p.id.None? && p.userId.None?
    ensures forall c :: !IsFilled(p, c)
    ensures FilledCount(p) == 0
  {
    Preferences(None, None, None, None, Some([]), None, Some([]), Some([]), None)
  }

  /** The seven categories of `p` are those of `q`. */
  predicate SameCategories(p: Preferences, q: Preferences) {
    && p.budget == q.budget && p.pace == q.pace && p.interests == q.interests
    && p.accommodationStyle == q.accommodationStyle && p.transport == q.transport
    && p.foodPreferences == q.foodPreferences && p.season == q.season
  }

  /** Records that agree on every category but one differ in their tally by at most one. */
  lemma OneCategoryMovesCountByOne(p: Preferences, q: Preferences, c: Category)
    requires forall d :: d != c ==> IsFilled(p, d) == IsFilled(q, d)
    ensures -1 <= FilledCount(p) - FilledCount(q) <= 1
  {
    FilledCountAsIndicators(p);
    FilledCountAsIndicators(q);
    assert c == BudgetCategory || Indicator(p, BudgetCategory) == Indicator(q, BudgetCategory);
    assert c == PaceCategory || Indicator(p, PaceCategory) == Indicator(q, PaceCategory);
    assert c == InterestsCategory || Indicator(p, InterestsCategory) == Indicator(q, InterestsCategory);
    assert c == AccommodationCategory || Indicator(p, AccommodationCategory) == Indicator(q, AccommodationCategory);
    assert c == TransportCategory || Indicator(p, TransportCategory) == Indicator(q, TransportCategory);
    assert c == FoodCategory || Indicator(p, FoodCategory) == Indicator(q, FoodCategory);
    assert c == SeasonCategory || Indicator(p, SeasonCategory) == Indicator(q, SeasonCategory);
  }
}
