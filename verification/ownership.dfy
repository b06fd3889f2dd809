/**
 * The link between notes and plans. A plan records the id of the note it
 * was generated from, without a foreign key: deleting a note leaves its
 * plans in place. Ids are never reused, so a plan's note is either gone or
 * still owned by the plan's owner. This is what makes `getPlansByNote`,
 * which checks only the note's owner, return only the caller's plans.
 */
module Ownership {
  import opened Wrappers
  import opened Tables
  import opened Notes
  import opened TripPlans
  import opened NoteController
  import opened TripPlanController
  import opened RequestAuth
  import opened Jwt
  import opened TripPlanService
  import opened Responses
  import opened PreferencesService

  /** Every plan names a note id already handed out, and while that note exists it has the plan's owner. */
  predicate Consistent(notes: Table<Note>, plans: Table<TripPlan>) {
    && Valid(notes) && Valid(plans)
    && forall id :: id in plans.rows ==>
      && plans.rows[id].noteId < notes.nextId
      && (plans.rows[id].noteId in notes.rows ==> notes.rows[plans.rows[id].noteId].userId == plans.rows[id].userId)
  }

  lemma EmptyStoresConsistent()
    ensures Consistent(Empty<Note>(), Empty<TripPlan>())
  {
  }

  /** Creating a note keeps the stores consistent: its id is new, so no plan names it. */
  lemma CreateNoteKeepsConsistent(jwt: Option<Verifier>, notes: Table<Note>, plans: Table<TripPlan>, header: Option<string>,
                                  title: Option<string>, content: Option<string>, now: nat)
    requires Consistent(notes, plans)
    ensures Consistent(NoteController.Create(jwt, notes, header, title, content, now).0, plans)
  {
    var (notes', r) := NoteController.Create(jwt, notes, header, title, content, now);
    if r.status == Created {
      var row := Field(r, "note").note;
      assert notes.nextId <= row.id by {
        assert row.id !in notes.rows;
      }
      forall id | id in plans.rows
        ensures plans.rows[id].noteId < notes'.nextId
        ensures plans.rows[id].noteId in notes'.rows ==> notes'.rows[plans.rows[id].noteId].userId == plans.rows[id].userId
      {
        var n := plans.rows[id].noteId;
        assert Find(notes', n) == Find(notes, n) || n == row.id;
      }
    }
  }

  /** Updating a note keeps its owner, so the stores stay consistent. */
  lemma UpdateNoteKeepsConsistent(jwt: Option<Verifier>, notes: Table<Note>, plans: Table<TripPlan>, header: Option<string>,
                                  id: int, title: Option<string>, content: Option<string>)
    requires Consistent(notes, plans)
    ensures Consistent(NoteController.Update(jwt, notes, header, id, title, content).0, plans)
  {
    var notes' := NoteController.Update(jwt, notes, header, id, title, content).0;
    forall k | k in plans.rows
      ensures plans.rows[k].noteId in notes'.rows ==> notes'.rows[plans.rows[k].noteId].userId == plans.rows[k].userId
    {
      var n := plans.rows[k].noteId;
      assert Find(notes', n).Some? ==> Find(notes, n).Some? && Find(notes', n).value.userId == Find(notes, n).value.userId;
    }
  }

  /** Deleting a note leaves its plans pointing at an id that is gone, which keeps the stores consistent. */
  lemma DeleteNoteKeepsConsistent(jwt: Option<Verifier>, notes: Table<Note>, plans: Table<TripPlan>, header: Option<string>, id: int)
    requires Consistent(notes, plans)
    ensures Consistent(NoteController.Delete(jwt, notes, header, id).0, plans)
  {
    var notes' := NoteController.Delete(jwt, notes, header, id).0;
    forall k | k in plans.rows
      ensures plans.rows[k].noteId in notes'.rows ==> notes'.rows[plans.rows[k].noteId].userId == plans.rows[k].userId
    {
      assert Find(notes', plans.rows[k].noteId).Some? ==> Find(notes', plans.rows[k].noteId) == Find(notes, plans.rows[k].noteId);
    }
  }

  /** A generated plan points at a note its owner owns, so the stores stay consistent. */
  lemma GenerateKeepsConsistent(ctx: Context, plans: Table<TripPlan>, header: Option<string>, noteId: int)
    requires Consistent(ctx.notes, plans)
    ensures Consistent(ctx.notes, Generate(ctx, plans, header, noteId).0)
  {
    var (plans', r) := Generate(ctx, plans, header, noteId);
    if r.status == Created {
      GenerateCreated(ctx, plans, header, noteId);
      var row := Field(r, "trip_plan").plan;
      var userId := ExtractUserId(ctx.jwt, header).value;
      assert FindByIdAndUserId(ctx.notes, noteId, userId).Some?;
      forall k | k in plans'.rows
        ensures plans'.rows[k].noteId < ctx.notes.nextId
        ensures plans'.rows[k].noteId in ctx.notes.rows ==> ctx.notes.rows[plans'.rows[k].noteId].userId == plans'.rows[k].userId
      {
        if k != row.id {
          assert Find(plans', k) == Find(plans, k);
        } else {
          assert Find(plans', k) == Some(row.value);
        }
      }
    }
  }

  /** Rating changes neither owner nor note, so the stores stay consistent. */
  lemma RateKeepsConsistent(ctx: Context, plans: Table<TripPlan>, header: Option<string>, id: int, rating: Option<int>)
    requires Consistent(ctx.notes, plans)
    ensures Consistent(ctx.notes, Rate(ctx, plans, header, id, rating).0)
  {
  }

  /** Deleting a plan keeps the stores consistent. */
  lemma DeletePlanKeepsConsistent(ctx: Context, plans: Table<TripPlan>, header: Option<string>, id: int)
    requires Consistent(ctx.notes, plans)
    ensures Consistent(ctx.notes, DeleteById(ctx, plans, header, id).0)
  {
  }

  /**
   * With consistent stores, every plan `getPlansByNote` returns belongs to
   * the caller, although the query itself filters by note only.
   */
  lemma PlansByNoteReturnsOnlyOwnPlans(ctx: Context, plans: Table<TripPlan>, header: Option<string>, noteId: int)
    requires Consistent(ctx.notes, plans)
    requires PlansByNote(ctx, plans, header, noteId).status == Ok
    ensures var r := PlansByNote(ctx, plans, header, noteId);
      forall id :: id in r.body.plans ==> r.body.plans[id].userId == ExtractUserId(ctx.jwt, header).value
  {
    var userId := ExtractUserId(ctx.jwt, header).value;
    assert FindByIdAndUserId(ctx.notes, noteId, userId).Some?;
  }

  /**
   * Without the invariant the guarantee fails: a plan of another user that
   * names the caller's note is returned to the caller.
   */
  lemma PlansByNoteNeedsConsistency()
    ensures var ctx := Context(Tables.Table(map[1 := Note(MockUserId, "t", "c", 0)], 2), EmptyStore(),
                               UsageLimits(_ => false, 0, _ => 0), None, None);
      var plans := Tables.Table(map[7 := TripPlan("b", 1, "p", None)], 8);
      && Valid(plans)
      && !Consistent(ctx.notes, plans)
      && PlansByNote(ctx, plans, None, 1).status == Ok
      && 7 in PlansByNote(ctx, plans, None, 1).body.plans
      && PlansByNote(ctx, plans, None, 1).body.plans[7].userId != MockUserId
  {
    var ctx := Context(Tables.Table(map[1 := Note(MockUserId, "t", "c", 0)], 2), EmptyStore(),
                       UsageLimits(_ => false, 0, _ => 0), None, None);
    var plans := Tables.Table(map[7 := TripPlan("b", 1, "p", None)], 8);
    assert FindByIdAndUserId(ctx.notes, 1, MockUserId).Some?;
    assert plans.rows[7].noteId == 1;
  }
}
