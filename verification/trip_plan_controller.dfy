/**
 * `TripPlanController`: each endpoint turns the caller's identity and the
 * service's outcome into a status code and a response body. The first
 * failing check decides the answer.
 */
module TripPlanController {
  import opened Wrappers
  import opened Text
  import opened Tables
  import opened Notes
  import opened TripPlans
  import opened PreferencesService
  import opened TripPlanService
  import opened Jwt
  import opened RequestAuth
  import opened Responses
  import opened Prompt

  /** What every endpoint reads but none writes: the notes, the preferences, the usage limits, the chat model and the JWT service. */
  datatype Context = Context(notes: Table<Note>, prefs: PrefStore, usage: UsageLimits, ai: Option<ChatModel>, jwt: Option<Verifier>)

  const NoteNotFoundMessage: string := "Note not found"
  const PlanNotFoundMessage: string := "Trip plan not found"
  const MissingPreferencesReason: string := "You need to fill at least 3 travel preferences to generate a plan"

  /** The reason `canGeneratePlan` gives for a reached limit. */
  function LimitReason(limit: int): string {
    "Daily AI usage limit exceeded (" + IntToString(limit) + " plans per day)"
  }

  /** The first check a generation request fails, in the order both endpoints run them. */
  datatype Gate = Unauthenticated | NoNote | MissingPreferences | LimitExceeded | Passed

  /**
   * Who is asking, whether they own the note, whether they have filled
   * enough preferences, whether they are within the daily limit.
   */
  function Check(ctx: Context, header: Option<string>, noteId: int): (g: Gate)
    ensures g == Unauthenticated <==> ExtractUserId(ctx.jwt, header).None?
    ensures g == NoNote <==>
      ExtractUserId(ctx.jwt, header).Some? && FindByIdAndUserId(ctx.notes, noteId, ExtractUserId(ctx.jwt, header).value).None?
    ensures g == MissingPreferences <==>
      && ExtractUserId(ctx.jwt, header).Some?
      && FindByIdAndUserId(ctx.notes, noteId, ExtractUserId(ctx.jwt, header).value).Some?
      && !HasMinimumPreferences(ctx.prefs, ExtractUserId(ctx.jwt, header).value)
    ensures g == LimitExceeded <==>
      && ExtractUserId(ctx.jwt, header).Some?
      && FindByIdAndUserId(ctx.notes, noteId, ExtractUserId(ctx.jwt, header).value).Some?
      && HasMinimumPreferences(ctx.prefs, ExtractUserId(ctx.jwt, header).value)
      && !ctx.usage.canGeneratePlan(ExtractUserId(ctx.jwt, header).value)
    ensures g == Passed <==>
      && ExtractUserId(ctx.jwt, header).Some?
      && FindByIdAndUserId(ctx.notes, noteId, ExtractUserId(ctx.jwt, header).value).Some?
      && HasMinimumPreferences(ctx.prefs, ExtractUserId(ctx.jwt, header).value)
      && ctx.usage.canGeneratePlan(ExtractUserId(ctx.jwt, header).value)
  {
    match ExtractUserId(ctx.jwt, header)
    case None => Unauthenticated
    case Some(userId) =>
      if FindByIdAndUserId(ctx.notes, noteId, userId).None? then NoNote
      else if !HasMinimumPreferences(ctx.prefs, userId) then MissingPreferences
      else if !ctx.usage.canGeneratePlan(userId) then LimitExceeded
      else Passed
  }

  /** The `canGeneratePlan` body for a known caller: `can_generate`, and the reason or the usage figures. */
  function Eligibility(g: Gate, usage: UsageLimits, userId: string): (m: map<string, Value>)
    requires g != Unauthenticated
    ensures "can_generate" in m && m["can_generate"] == Flag(g == Passed)
    ensures "reason" in m <==> g != Passed
    ensures g == NoNote ==> m["reason"] == Str(NoteNotFoundMessage)
    ensures ("missing_preferences" in m <==> g == MissingPreferences) && ("limit_exceeded" in m <==> g == LimitExceeded)
    ensures "missing_preferences" in m ==> m["missing_preferences"] == Flag(true)
    ensures "limit_exceeded" in m ==> m["limit_exceeded"] == Flag(true)
    ensures "daily_limit" in m <==> g == LimitExceeded || g == Passed
    ensures "daily_limit" in m ==> m["daily_limit"] == Number(usage.dailyLimit)
    ensures "remaining_usage" in m <==> g == Passed
    ensures "remaining_usage" in m ==> m["remaining_usage"] == Number(usage.remainingUsage(userId))
  {
    match g
    case NoNote =>
      map["can_generate" := Flag(false), "reason" := Str(NoteNotFoundMessage)]
    case MissingPreferences =>
      map["can_generate" := Flag(false), "reason" := Str(MissingPreferencesReason), "missing_preferences" := Flag(true)]
    case LimitExceeded =>
      map["can_generate" := Flag(false), "reason" := Str(LimitReason(usage.dailyLimit)),
          "limit_exceeded" := Flag(true), "daily_limit" := Number(usage.dailyLimit)]
    case Passed =>
      map["can_generate" := Flag(true), "remaining_usage" := Number(usage.remainingUsage(userId)),
          "daily_limit" := Number(usage.dailyLimit)]
  }

  /**
   * `canGeneratePlan`: note ownership, then preferences, then the usage
   * limit, each failure answered with `can_generate` false, its reason and
   * its flag; only a caller who passes all three is told the remaining usage.
   */
  function CanGenerate(ctx: Context, header: Option<string>, noteId: int): (r: Response)
    ensures Check(ctx, header, noteId) == Unauthenticated <==> r == Response(Unauthorized, NoBody)
    ensures Check(ctx, header, noteId) != Unauthenticated ==> r.status == Ok
    ensures Check(ctx, header, noteId) != Unauthenticated ==> Field(r, "can_generate") == Flag(Check(ctx, header, noteId) == Passed)
    ensures Check(ctx, header, noteId) == NoNote ==> Field(r, "reason") == Str(NoteNotFoundMessage)
    ensures Field(r, "missing_preferences") == (if Check(ctx, header, noteId) == MissingPreferences then Flag(true) else Null)
    ensures Field(r, "limit_exceeded") == (if Check(ctx, header, noteId) == LimitExceeded then Flag(true) else Null)
    ensures Check(ctx, header, noteId) == LimitExceeded || Check(ctx, header, noteId) == Passed ==>
      Field(r, "daily_limit") == Number(ctx.usage.dailyLimit)
    ensures Check(ctx, header, noteId) == Passed ==>
      Field(r, "remaining_usage") == Number(ctx.usage.remainingUsage(ExtractUserId(ctx.jwt, header).value))
  {
    var g := Check(ctx, header, noteId);
    if g == Unauthenticated then Response(Unauthorized, NoBody)
    else Response(Ok, Fields(Eligibility(g, ctx.usage, ExtractUserId(ctx.jwt, header).value)))
  }

  /**
   * The 400 body for an `IllegalStateException`: its message, and the flag
   * chosen by the words the message contains, "preferences" before "limit".
   */
  function GateFailure(usage: UsageLimits, message: string): (m: map<string, Value>)
    ensures "message" in m && m["message"] == Str(message) && "success" in m && m["success"] == Flag(false)
    ensures Contains(message, "preferences") ==> "missing_preferences" in m && m["missing_preferences"] == Flag(true) && "limit_exceeded" !in m
    ensures !Contains(message, "preferences") && Contains(message, "limit") ==>
      && "missing_preferences" !in m
      && "limit_exceeded" in m && m["limit_exceeded"] == Flag(true)
      && "daily_limit" in m && m["daily_limit"] == Number(usage.dailyLimit)
    ensures !Contains(message, "preferences") && !Contains(message, "limit") ==> m == Outcome(false, message)
  {
    if Contains(message, "preferences") then
      Outcome(false, message)["missing_preferences" := Flag(true)]
    else if Contains(message, "limit") then
      Outcome(false, message)["limit_exceeded" := Flag(true)]["daily_limit" := Number(usage.dailyLimit)]
    else
      Outcome(false, message)
  }

  /** The 201 body: the stored plan and the usage still left. */
  function GeneratedBody(row: Row<TripPlan>, remaining: int): (m: map<string, Value>)
    ensures "trip_plan" in m && m["trip_plan"] == PlanValue(row)
    ensures "success" in m && m["success"] == Flag(true)
    ensures "remaining_usage" in m && m["remaining_usage"] == Number(remaining)
    ensures "missing_preferences" !in m && "limit_exceeded" !in m
  {
    Outcome(true, "Trip plan generated successfully")["trip_plan" := PlanValue(row)]["remaining_usage" := Number(remaining)]
  }

  /** The `try`/`catch` of `generatePlan`: the response for each outcome of the service call. */
  function Answer(plans: Table<TripPlan>, usage: UsageLimits, userId: string,
                  outcome: Result<(Table<TripPlan>, Row<TripPlan>), Exception>): (r: (Table<TripPlan>, Response))
    ensures outcome.Success? ==>
      && r.0 == outcome.value.0 && r.1.status == Created
      && Field(r.1, "trip_plan") == PlanValue(outcome.value.1)
      && Field(r.1, "remaining_usage") == Number(usage.remainingUsage(userId))
      && Field(r.1, "missing_preferences") == Null && Field(r.1, "limit_exceeded") == Null
    ensures outcome.Failure? ==> r.0 == plans
    ensures outcome.Failure? && outcome.error.IllegalState? ==>
      var message := outcome.error.message;
      && r.1.status == BadRequest && Field(r.1, "message") == Str(message)
      && Field(r.1, "missing_preferences") == (if Contains(message, "preferences") then Flag(true) else Null)
      && Field(r.1, "limit_exceeded") == (if !Contains(message, "preferences") && Contains(message, "limit") then Flag(true) else Null)
      && (!Contains(message, "preferences") && Contains(message, "limit") ==> Field(r.1, "daily_limit") == Number(usage.dailyLimit))
    ensures outcome.Failure? && !outcome.error.IllegalState? ==>
      && r.1.status == InternalServerError
      && Field(r.1, "message") == Str(GenerationFailurePrefix + outcome.error.message)
      && Field(r.1, "missing_preferences") == Null && Field(r.1, "limit_exceeded") == Null
  {
    match outcome
    case Success((plans', row)) => (plans', Response(Created, Fields(GeneratedBody(row, usage.remainingUsage(userId)))))
    case Failure(IllegalState(message)) => (plans, Response(BadRequest, Fields(GateFailure(usage, message))))
    case Failure(e) => (plans, Response(InternalServerError, Fields(Outcome(false, GenerationFailurePrefix + e.message))))
  }

  /**
   * `generatePlan`: 404 before the service is asked when the caller does not
   * own the note; 201 with the stored plan; 400 with the flag its message
   * selects for a gate failure; 500 for a failed model call, whose message
   * then carries the failure prefix twice, once from the service and once here.
   */
  function Generate(ctx: Context, plans: Table<TripPlan>, header: Option<string>, noteId: int): (r: (Table<TripPlan>, Response))
    requires Valid(plans)
    ensures Valid(r.0)
    ensures r.1.status != Created ==> r.0 == plans
    ensures Check(ctx, header, noteId) == Unauthenticated <==> r.1 == Response(Unauthorized, NoBody)
    ensures Check(ctx, header, noteId) == NoNote ==> r.1 == Response(NotFound, Fields(Outcome(false, NoteNotFoundMessage)))
    ensures Check(ctx, header, noteId) == Passed <==> r.1.status == Created || r.1.status == InternalServerError
  {
    match ExtractUserId(ctx.jwt, header)
    case None => (plans, Response(Unauthorized, NoBody))
    case Some(userId) =>
      match FindByIdAndUserId(ctx.notes, noteId, userId)
      case None => (plans, Response(NotFound, Fields(Outcome(false, NoteNotFoundMessage))))
      case Some(note) =>
        Answer(plans, ctx.usage, userId, GeneratePlan(ctx.prefs, plans, ctx.usage, ctx.ai, userId, noteId, note))
  }

  /**
   * A 201 from `generatePlan` reports the one plan it stored: the caller's,
   * pointing at the note, unrated, under a fresh id, every other plan as it was.
   */
  lemma GenerateCreated(ctx: Context, plans: Table<TripPlan>, header: Option<string>, noteId: int)
    requires Valid(plans)
    requires Generate(ctx, plans, header, noteId).1.status == Created
    ensures var (plans', r) := Generate(ctx, plans, header, noteId);
      var userId := ExtractUserId(ctx.jwt, header).value;
      && Field(r, "trip_plan").PlanValue?
      && var row := Field(r, "trip_plan").plan;
      && row.value.userId == userId && row.value.noteId == noteId && row.value.rating.None?
      && row.id !in plans.rows && Find(plans', row.id) == Some(row.value)
      && (forall id :: id != row.id ==> Find(plans', id) == Find(plans, id))
      && Field(r, "remaining_usage") == Number(ctx.usage.remainingUsage(userId))
  {
    var userId := ExtractUserId(ctx.jwt, header).value;
    var note := FindByIdAndUserId(ctx.notes, noteId, userId).value;
    var outcome := GeneratePlan(ctx.prefs, plans, ctx.usage, ctx.ai, userId, noteId, note);
    assert Generate(ctx, plans, header, noteId) == Answer(plans, ctx.usage, userId, outcome);
  }

  /**
   * Too few preferences: 400 with the service's message and the
   * `missing_preferences` flag, and no `limit_exceeded` flag.
   */
  lemma GenerateMissingPreferences(ctx: Context, plans: Table<TripPlan>, header: Option<string>, noteId: int)
    requires Valid(plans)
    requires Check(ctx, header, noteId) == MissingPreferences
    ensures var r := Generate(ctx, plans, header, noteId).1;
      && r.status == BadRequest && Field(r, "message") == Str(PreferencesMessage)
      && Field(r, "missing_preferences") == Flag(true) && Field(r, "limit_exceeded") == Null
  {
    var userId := ExtractUserId(ctx.jwt, header).value;
    var note := FindByIdAndUserId(ctx.notes, noteId, userId).value;
    var outcome := GeneratePlan(ctx.prefs, plans, ctx.usage, ctx.ai, userId, noteId, note);
    assert outcome == Failure(IllegalState(PreferencesMessage));
    PreferencesMessageMentionsPreferences();
    assert Generate(ctx, plans, header, noteId) == Answer(plans, ctx.usage, userId, outcome);
  }

  /**
   * The daily limit reached: 400 with the service's message, the
   * `limit_exceeded` flag and the limit, and no `missing_preferences` flag.
   */
  lemma GenerateLimitExceeded(ctx: Context, plans: Table<TripPlan>, header: Option<string>, noteId: int)
    requires Valid(plans)
    requires Check(ctx, header, noteId) == LimitExceeded
    ensures var r := Generate(ctx, plans, header, noteId).1;
      && r.status == BadRequest && Field(r, "message") == Str(LimitMessage(ctx.usage.dailyLimit))
      && Field(r, "limit_exceeded") == Flag(true) && Field(r, "missing_preferences") == Null
      && Field(r, "daily_limit") == Number(ctx.usage.dailyLimit)
  {
    var userId := ExtractUserId(ctx.jwt, header).value;
    var note := FindByIdAndUserId(ctx.notes, noteId, userId).value;
    var outcome := GeneratePlan(ctx.prefs, plans, ctx.usage, ctx.ai, userId, noteId, note);
    assert outcome == Failure(IllegalState(LimitMessage(ctx.usage.dailyLimit)));
    GateMessagesAreDistinguishable(ctx.usage.dailyLimit);
    assert Generate(ctx, plans, header, noteId) == Answer(plans, ctx.usage, userId, outcome);
  }

  /** Past every check neither flag is raised, whatever the model does. */
  lemma GeneratePassedRaisesNoFlag(ctx: Context, plans: Table<TripPlan>, header: Option<string>, noteId: int)
    requires Valid(plans)
    requires Check(ctx, header, noteId) == Passed
    ensures var r := Generate(ctx, plans, header, noteId).1;
      Field(r, "missing_preferences") == Null && Field(r, "limit_exceeded") == Null
  {
    var userId := ExtractUserId(ctx.jwt, header).value;
    var note := FindByIdAndUserId(ctx.notes, noteId, userId).value;
    var outcome := GeneratePlan(ctx.prefs, plans, ctx.usage, ctx.ai, userId, noteId, note);
    assert outcome.Success? || !outcome.error.IllegalState?;
    assert Generate(ctx, plans, header, noteId) == Answer(plans, ctx.usage, userId, outcome);
  }

  /**
   * A 500 from `generatePlan` means every check passed and the chat model
   * failed; the message carries the failure prefix twice, once from the
   * service and once from the controller, before the model's own message.
   */
  lemma GenerateModelFailure(ctx: Context, plans: Table<TripPlan>, header: Option<string>, noteId: int)
    requires Valid(plans)
    requires Generate(ctx, plans, header, noteId).1.status == InternalServerError
    ensures Check(ctx, header, noteId) == Passed
    ensures var userId := ExtractUserId(ctx.jwt, header).value;
      var prompt := BuildTripPlanPrompt(FindByIdAndUserId(ctx.notes, noteId, userId).value, Get(ctx.prefs, userId).value);
      && ctx.ai.Some? && ctx.ai.value.call(prompt).Failure?
      && Field(Generate(ctx, plans, header, noteId).1, "message")
         == Str(GenerationFailurePrefix + (GenerationFailurePrefix + ctx.ai.value.call(prompt).error))
  {
    var userId := ExtractUserId(ctx.jwt, header).value;
    var note := FindByIdAndUserId(ctx.notes, noteId, userId).value;
    GeneratePlanCallsModel(ctx.prefs, plans, ctx.usage, ctx.ai, userId, noteId, note);
    var outcome := GeneratePlan(ctx.prefs, plans, ctx.usage, ctx.ai, userId, noteId, note);
    assert Generate(ctx, plans, header, noteId) == Answer(plans, ctx.usage, userId, outcome);
  }

  /** `getPlansByNote`: 404 unless the caller owns the note; then every plan generated from it. */
  function PlansByNote(ctx: Context, plans: Table<TripPlan>, header: Option<string>, noteId: int): (r: Response)
    ensures Check(ctx, header, noteId) == Unauthenticated <==> r == Response(Unauthorized, NoBody)
    ensures Check(ctx, header, noteId) == NoNote <==> r == Response(NotFound, NoBody)
    ensures r.status == Ok <==> Check(ctx, header, noteId) != Unauthenticated && Check(ctx, header, noteId) != NoNote
    ensures r.status == Ok ==>
      && r.body.PlanList?
      && (forall id :: id in r.body.plans <==> id in plans.rows && plans.rows[id].noteId == noteId)
      && (forall id :: id in r.body.plans ==> r.body.plans[id] == plans.rows[id])
  {
    match ExtractUserId(ctx.jwt, header)
    case None => Response(Unauthorized, NoBody)
    case Some(userId) =>
      if FindByIdAndUserId(ctx.notes, noteId, userId).None? then Response(NotFound, NoBody)
      else Response(Ok, PlanList(FindByNoteId(plans, noteId)))
  }

  /** `getPlanById`: 404 for an unknown plan, 403 for another user's, the plan otherwise. */
  function PlanById(ctx: Context, plans: Table<TripPlan>, header: Option<string>, id: int): (r: Response)
    ensures ExtractUserId(ctx.jwt, header).None? <==> r == Response(Unauthorized, NoBody)
    ensures ExtractUserId(ctx.jwt, header).Some? ==>
      var userId := ExtractUserId(ctx.jwt, header).value;
      && (r.status == NotFound <==> id !in plans.rows)
      && (r.status == Forbidden <==> id in plans.rows && plans.rows[id].userId != userId)
      && (r.status == Ok <==> id in plans.rows && plans.rows[id].userId == userId)
    ensures r.status == Ok ==> r.body == PlanBody(Row(id, plans.rows[id]))
    ensures r.status != Ok ==> r.body == NoBody
  {
    match ExtractUserId(ctx.jwt, header)
    case None => Response(Unauthorized, NoBody)
    case Some(userId) =>
      match Find(plans, id)
      case None => Response(NotFound, NoBody)
      case Some(plan) =>
        if plan.userId != userId then Response(Forbidden, NoBody) else Response(Ok, PlanBody(Row(id, plan)))
  }

  /**
   * `ratePlan`: 400 for a rating outside 1..5, 404 for an unknown plan,
   * 403 for another user's plan, 200 with the rated plan otherwise.
   */
  function Rate(ctx: Context, plans: Table<TripPlan>, header: Option<string>, id: int, rating: Option<int>): (r: (Table<TripPlan>, Response))
    ensures r.1.status != Ok ==> r.0 == plans
    ensures ExtractUserId(ctx.jwt, header).None? <==> r.1 == Response(Unauthorized, NoBody)
    ensures ExtractUserId(ctx.jwt, header).Some? ==>
      var userId := ExtractUserId(ctx.jwt, header).value;
      && (r.1.status == BadRequest <==> !ValidRating(rating))
      && (r.1.status == NotFound <==> ValidRating(rating) && id !in plans.rows)
      && (r.1.status == Forbidden <==> ValidRating(rating) && id in plans.rows && plans.rows[id].userId != userId)
      && (r.1.status == Ok <==> ValidRating(rating) && id in plans.rows && plans.rows[id].userId == userId)
    ensures r.1.status == BadRequest ==> Field(r.1, "message") == Str(RatingMessage)
    ensures r.1.status == NotFound ==> Field(r.1, "message") == Str(PlanNotFoundMessage)
    ensures r.1.status == Forbidden ==> Field(r.1, "message") == Str(RateForeignMessage)
    ensures r.1.status == Ok ==>
      && id in plans.rows
      && Field(r.1, "trip_plan") == PlanValue(Row(id, plans.rows[id].(rating := rating)))
      && r.0.rows == plans.rows[id := plans.rows[id].(rating := rating)]
      && r.0.nextId == plans.nextId
  {
    match ExtractUserId(ctx.jwt, header)
    case None => (plans, Response(Unauthorized, NoBody))
    case Some(userId) =>
      match RatePlan(plans, id, userId, rating)
      case Success((plans', None)) => (plans, Response(NotFound, Fields(Outcome(false, PlanNotFoundMessage))))
      case Success((plans', Some(plan))) =>
        (plans', Response(Ok, Fields(Outcome(true, "Trip plan rated successfully")["trip_plan" := PlanValue(Row(id, plan))])))
      case Failure(IllegalArgument(message)) => (plans, Response(BadRequest, Fields(Outcome(false, message))))
      case Failure(IllegalState(message)) => (plans, Response(Forbidden, Fields(Outcome(false, message))))
      case Failure(Runtime(message)) =>
        (plans, Response(InternalServerError, Fields(Outcome(false, "Failed to rate trip plan: " + message))))
  }

  /** `deletePlan`: 404 for an unknown plan, 403 for another user's, 200 once the owner's plan is gone. */
  function DeleteById(ctx: Context, plans: Table<TripPlan>, header: Option<string>, id: int): (r: (Table<TripPlan>, Response))
    ensures r.1.status != Ok ==> r.0 == plans
    ensures ExtractUserId(ctx.jwt, header).None? <==> r.1 == Response(Unauthorized, NoBody)
    ensures ExtractUserId(ctx.jwt, header).Some? ==>
      var userId := ExtractUserId(ctx.jwt, header).value;
      && (r.1.status == NotFound <==> id !in plans.rows)
      && (r.1.status == Forbidden <==> id in plans.rows && plans.rows[id].userId != userId)
      && (r.1.status == Ok <==> id in plans.rows && plans.rows[id].userId == userId)
    ensures r.1.status == NotFound ==> Field(r.1, "message") == Str(PlanNotFoundMessage)
    ensures r.1.status == Forbidden ==> Field(r.1, "message") == Str(DeleteForeignMessage)
    ensures r.1.status == Ok ==> r.0.rows == plans.rows - {id} && r.0.nextId == plans.nextId
  {
    match ExtractUserId(ctx.jwt, header)
    case None => (plans, Response(Unauthorized, NoBody))
    case Some(userId) =>
      match DeletePlan(plans, id, userId)
      case Success((plans', true)) =>
        assert plans'.rows == plans.rows - {id} by {
          forall k ensures (k in plans'.rows <==> k in plans.rows - {id}) && (k in plans'.rows ==> plans'.rows[k] == plans.rows[k]) {
            assert Find(plans', k) == (if k == id then None else Find(plans, k));
          }
        }
        (plans', Response(Ok, Fields(Outcome(true, "Trip plan deleted successfully"))))
      case Success((_, false)) => (plans, Response(NotFound, Fields(Outcome(false, PlanNotFoundMessage))))
      case Failure(IllegalState(message)) => (plans, Response(Forbidden, Fields(Outcome(false, message))))
      case Failure(e) =>
        (plans, Response(InternalServerError, Fields(Outcome(false, "Failed to delete trip plan: " + e.message))))
  }

  /**
   * `can_generate` is true exactly when `generatePlan` gets past every check
   * and reaches the model, and both endpoints raise the same flag for the
   * same failed check.
   */
  lemma CanGenerateForetellsGenerate(ctx: Context, plans: Table<TripPlan>, header: Option<string>, noteId: int)
    requires Valid(plans)
    ensures Field(CanGenerate(ctx, header, noteId), "can_generate") == Flag(true) <==>
      var status := Generate(ctx, plans, header, noteId).1.status;
      status == Created || status == InternalServerError
    ensures Field(CanGenerate(ctx, header, noteId), "missing_preferences")
         == Field(Generate(ctx, plans, header, noteId).1, "missing_preferences")
    ensures Field(CanGenerate(ctx, header, noteId), "limit_exceeded")
         == Field(Generate(ctx, plans, header, noteId).1, "limit_exceeded")
  {
    match Check(ctx, header, noteId)
    case Unauthenticated =>
    case NoNote =>
    case MissingPreferences => GenerateMissingPreferences(ctx, plans, header, noteId);
    case LimitExceeded => GenerateLimitExceeded(ctx, plans, header, noteId);
    case Passed => GeneratePassedRaisesNoFlag(ctx, plans, header, noteId);
  }

  /** `generatePlan` leaves every plan the caller does not own as it was. */
  lemma GenerateKeepsForeignPlans(ctx: Context, plans: Table<TripPlan>, header: Option<string>, noteId: int, k: int)
    requires Valid(plans)
    requires k in plans.rows
    requires ExtractUserId(ctx.jwt, header).Some? ==> plans.rows[k].userId != ExtractUserId(ctx.jwt, header).value
    ensures Find(Generate(ctx, plans, header, noteId).0, k) == Find(plans, k)
  {
    if Generate(ctx, plans, header, noteId).1.status == Created {
      GenerateCreated(ctx, plans, header, noteId);
    }
  }

  /** `ratePlan` leaves every plan the caller does not own as it was. */
  lemma RateKeepsForeignPlans(ctx: Context, plans: Table<TripPlan>, header: Option<string>, id: int, rating: Option<int>, k: int)
    requires k in plans.rows
    requires ExtractUserId(ctx.jwt, header).Some? ==> plans.rows[k].userId != ExtractUserId(ctx.jwt, header).value
    ensures Find(Rate(ctx, plans, header, id, rating).0, k) == Find(plans, k)
  {
  }

  /** `deletePlan` leaves every plan the caller does not own as it was. */
  lemma DeleteKeepsForeignPlans(ctx: Context, plans: Table<TripPlan>, header: Option<string>, id: int, k: int)
    requires k in plans.rows
    requires ExtractUserId(ctx.jwt, header).Some? ==> plans.rows[k].userId != ExtractUserId(ctx.jwt, header).value
    ensures Find(DeleteById(ctx, plans, header, id).0, k) == Find(plans, k)
  {
  }
}
