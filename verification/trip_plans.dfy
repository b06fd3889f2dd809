/**
 * The `TripPlan` entity and the derived queries of `TripPlanRepository`.
 */
module TripPlans {
  import opened Wrappers
  import opened Tables

  /**
   * A generated plan: owner, the note it was generated from, the generated
   * text, and an optional rating (`None` until the owner rates it).
   */
  datatype TripPlan = TripPlan(userId: string, noteId: int, planContent: string, rating: Option<int>)

  /** The range `ratePlan` accepts: a present rating from 1 to 5. */
  predicate ValidRating(rating: Option<int>) {
    rating.Some? && 1 <= rating.value <= 5
  }

  /** Every stored rating is absent or in range. */
  predicate RatingsValid(t: Table<TripPlan>) {
    forall id :: id in t.rows ==> t.rows[id].rating.None? || ValidRating(t.rows[id].rating)
  }

  /** `findByUserId`. */
  function FindByUserId(t: Table<TripPlan>, userId: string): (r: map<int, TripPlan>)
    ensures forall id :: id in r <==> id in t.rows && t.rows[id].userId == userId
    ensures forall id :: id in r ==> r[id] == t.rows[id]
  {
    Where(t, (p: TripPlan) => p.userId == userId)
  }

  /** `findByNoteId`. */
  function FindByNoteId(t: Table<TripPlan>, noteId: int): (r: map<int, TripPlan>)
    ensures forall id :: id in r <==> id in t.rows && t.rows[id].noteId == noteId
    ensures forall id :: id in r ==> r[id] == t.rows[id]
  {
    Where(t, (p: TripPlan) => p.noteId == noteId)
  }

  /** `findByUserIdAndNoteId`: the plans both single-column queries return. */
  function FindByUserIdAndNoteId(t: Table<TripPlan>, userId: string, noteId: int): (r: map<int, TripPlan>)
    ensures forall id :: id in r <==> id in FindByUserId(t, userId) && id in FindByNoteId(t, noteId)
    ensures forall id :: id in r ==> r[id] == t.rows[id]
  {
    Where(t, (p: TripPlan) => p.userId == userId && p.noteId == noteId)
  }
}
