/**
 * `TripPlanService`: the generation gate (preferences, then usage limit,
 * then the model call, then the save) and the owner-checked rating and
 * deletion of plans.
 */
module TripPlanService {
  import opened Wrappers
  import opened Text
  import opened Preferences
  import opened PreferencesService
  import opened Tables
  import opened Notes
  import opened TripPlans
  import opened Prompt

  /**
   * What the code asks of `AIUsageLimitService`, whose source is not part
   * of this model: the permission test, the configured daily limit and the
   * remaining count, each as given at the time of the request.
   */
  datatype UsageLimits = UsageLimits(canGeneratePlan: string -> bool, dailyLimit: int, remainingUsage: string -> int)

  /** The chat model: the generated text for a prompt, or the message of the exception it throws. */
  datatype ChatModel = ChatModel(call: string -> Result<string, string>)

  /** Fewer categories than this and no plan is generated. */
  const MinimumCategories: nat := 3

  /** Written around "preferences", the word the controller's dispatch looks for, so that its presence is evident. */
  const PreferencesMessage: string := "User must have at least 3 " + "preferences" + " filled to generate a plan"
  const PreferencesNotFoundMessage: string := "Preferences not found"
  const GenerationFailurePrefix: string := "Failed to generate trip plan: "
  const RatingMessage: string := "Rating must be between 1 and 5"
  const RateForeignMessage: string := "Cannot rate plan owned by another user"
  const DeleteForeignMessage: string := "Cannot delete plan owned by another user"

  /** The plan text used when no chat model is configured. */
  const MockPlan: string :=
    "Mock AI-generated plan for testing:\n\n"
    + "Day 1:\n- Morning: Arrival and hotel check-in\n- Afternoon: City tour\n- Evening: Local restaurant\n\n"
    + "Day 2:\n- Morning: Museum visit\n- Afternoon: Shopping\n- Evening: Sunset viewpoint\n\n"
    + "Day 3:\n- Morning: Nature excursion\n- Afternoon: Beach relaxation\n- Evening: Departure"

  /** The message of the usage-limit rejection, the limit printed in decimal. */
  function LimitMessage(limit: int): string {
    LimitPrefix + IntToString(limit) + LimitSuffix
  }

  const LimitPrefix: string := "Daily AI usage limit exceeded. Limit: "
  const LimitSuffix: string := " plans per day"

  /**
   * `hasMinimumPreferences`: the user has a record and at least three of its
   * seven categories are filled, a set-valued one only when it has a member.
   */
  function HasMinimumPreferences(prefs: PrefStore, userId: string): (r: bool)
    ensures r <==> Get(prefs, userId).Some? && |FilledCategories(Get(prefs, userId).value)| >= MinimumCategories
    ensures !HasPreferences(prefs, userId) ==> !r
  {
    match Get(prefs, userId)
    case None => false
    case Some(p) =>
      FilledCountIsFilledCategories(p);
      FilledCount(p) >= 3
  }

  /** The model's answer, or the mock plan when no model is configured; a thrown exception becomes a `RuntimeException`. */
  function CallModel(ai: Option<ChatModel>, prompt: string): (r: Result<string, Exception>)
    ensures ai.None? ==> r == Success(MockPlan)
    ensures ai.Some? && ai.value.call(prompt).Success? ==> r == Success(ai.value.call(prompt).value)
    ensures ai.Some? && ai.value.call(prompt).Failure? ==>
      r == Failure(Runtime(GenerationFailurePrefix + ai.value.call(prompt).error))
  {
    match ai
    case None => Success(MockPlan)
    case Some(model) =>
      match model.call(prompt)
      case Success(text) => Success(text)
      case Failure(message) => Failure(Runtime(GenerationFailurePrefix + message))
  }

  /**
   * The steps of `generatePlan` after both gates: build the prompt from the
   * user's record, ask the model, and store its text as a new unrated plan.
   * A model failure stores nothing.
   */
  function CallAndSave(plans: Table<TripPlan>, ai: Option<ChatModel>, userId: string, noteId: int, note: Note, p: Preferences):
    (r: Result<(Table<TripPlan>, Row<TripPlan>), Exception>)
    requires Valid(plans)
    ensures r.Failure? ==> r.error.Runtime? && StartsWith(r.error.message, GenerationFailurePrefix)
    ensures r.Success? ==>
      var (plans', row) := r.value;
      && Valid(plans')
      && row.value.userId == userId && row.value.noteId == noteId && row.value.rating.None?
      && row.id !in plans.rows && Find(plans', row.id) == Some(row.value)
      && (forall id :: id != row.id ==> Find(plans', id) == Find(plans, id))
  {
    match CallModel(ai, BuildTripPlanPrompt(note, p))
    case Failure(e) =>
      assert (GenerationFailurePrefix + e.message[|GenerationFailurePrefix|..])[..|GenerationFailurePrefix|] == GenerationFailurePrefix;
      Failure(e)
    case Success(content) =>
      var plan := TripPlan(userId, noteId, content, None);
      var (plans', id) := Insert(plans, plan);
      Success((plans', Row(id, plan)))
  }

  /**
   * `generatePlan`. The preference gate runs first and the usage gate
   * second; either failure ends the call before the model is asked and
   * before anything is stored. A model failure stores nothing either. On
   * success exactly one new plan is stored, owned by the caller, pointing at
   * the note, holding the generated text and no rating.
   */
  function GeneratePlan(prefs: PrefStore, plans: Table<TripPlan>, usage: UsageLimits, ai: Option<ChatModel>,
                        userId: string, noteId: int, note: Note): (r: Result<(Table<TripPlan>, Row<TripPlan>), Exception>)
    requires Valid(plans)
    ensures !HasMinimumPreferences(prefs, userId) ==> r == Failure(IllegalState(PreferencesMessage))
    ensures HasMinimumPreferences(prefs, userId) && !usage.canGeneratePlan(userId) ==>
      r == Failure(IllegalState(LimitMessage(usage.dailyLimit)))
    ensures r.Failure? ==> (r.error.IllegalState? <==> !HasMinimumPreferences(prefs, userId) || !usage.canGeneratePlan(userId))
    ensures r.Failure? && !r.error.IllegalState? ==> r.error.Runtime? && StartsWith(r.error.message, GenerationFailurePrefix)
    ensures r.Success? ==>
      var (plans', row) := r.value;
      && Valid(plans')
      && row.value.userId == userId && row.value.noteId == noteId && row.value.rating.None?
      && row.id !in plans.rows && Find(plans', row.id) == Some(row.value)
      && (forall id :: id != row.id ==> Find(plans', id) == Find(plans, id))
  {
    if !HasMinimumPreferences(prefs, userId) then
      Failure(IllegalState(PreferencesMessage))
    else if !usage.canGeneratePlan(userId) then
      Failure(IllegalState(LimitMessage(usage.dailyLimit)))
    else
      match Get(prefs, userId)
      case None => Failure(IllegalState(PreferencesNotFoundMessage))
      case Some(p) => CallAndSave(plans, ai, userId, noteId, note, p)
  }

  /**
   * Past both gates the outcome is the model's: its failure is passed on and
   * nothing is stored, its text becomes the stored plan, owned by the caller,
   * pointing at the note and unrated.
   */
  lemma GeneratePlanCallsModel(prefs: PrefStore, plans: Table<TripPlan>, usage: UsageLimits, ai: Option<ChatModel>,
                               userId: string, noteId: int, note: Note)
    requires Valid(plans)
    requires HasMinimumPreferences(prefs, userId) && usage.canGeneratePlan(userId)
    ensures var r := GeneratePlan(prefs, plans, usage, ai, userId, noteId, note);
      var generated := CallModel(ai, BuildTripPlanPrompt(note, Get(prefs, userId).value));
      && (generated.Failure? ==> r == Failure(generated.error))
      && (generated.Success? ==> r.Success? && r.value.1.value == TripPlan(userId, noteId, generated.value, None))
  {
  }

  /** With too few preferences the outcome depends neither on the usage limits nor on the model. */
  lemma PreferenceGateComesFirst(prefs: PrefStore, plans: Table<TripPlan>, usage: UsageLimits, usage': UsageLimits,
                                 ai: Option<ChatModel>, ai': Option<ChatModel>, userId: string, noteId: int, note: Note)
    requires Valid(plans)
    requires !HasMinimumPreferences(prefs, userId)
    ensures GeneratePlan(prefs, plans, usage, ai, userId, noteId, note)
         == GeneratePlan(prefs, plans, usage', ai', userId, noteId, note)
    ensures GeneratePlan(prefs, plans, usage, ai, userId, noteId, note).Failure?
  {
  }

  /** Past the preference gate but over the limit, the outcome does not depend on the model. */
  lemma UsageGateComesBeforeTheModel(prefs: PrefStore, plans: Table<TripPlan>, usage: UsageLimits,
                                     ai: Option<ChatModel>, ai': Option<ChatModel>, userId: string, noteId: int, note: Note)
    requires Valid(plans)
    requires HasMinimumPreferences(prefs, userId) && !usage.canGeneratePlan(userId)
    ensures GeneratePlan(prefs, plans, usage, ai, userId, noteId, note)
         == GeneratePlan(prefs, plans, usage, ai', userId, noteId, note)
  {
  }

  /** The preference-gate message names the preferences. */
  lemma PreferencesMessageMentionsPreferences()
    ensures Contains(PreferencesMessage, "preferences")
  {
    ContainsMiddle("User must have at least 3 ", "preferences", " filled to generate a plan");
  }

  /** The usage-gate message names the limit. */
  lemma LimitMessageMentionsLimit(limit: int)
    ensures Contains(LimitMessage(limit), "limit")
  {
    var tail := " exceeded. Limit: " + IntToString(limit) + LimitSuffix;
    assert LimitPrefix == "Daily AI usage " + "limit" + " exceeded. Limit: ";
    assert LimitMessage(limit) == "Daily AI usage " + "limit" + tail;
    ContainsMiddle("Daily AI usage ", "limit", tail);
  }

  /** No letter 'f' appears in the usage-gate message, whatever the limit. */
  lemma LimitMessageHasNoF(limit: int)
    ensures 'f' !in LimitMessage(limit)
  {
    var digits := IntToString(limit);
    assert 'f' !in digits by {
      forall i | 0 <= i < |digits|
        ensures digits[i] != 'f'
      {
        assert IsDigit(digits[i]) || digits[i] == '-';
      }
    }
    assert 'f' !in LimitPrefix;
    assert 'f' !in LimitSuffix;
  }

  /** The two gate messages are told apart by the words the controller looks for. */
  lemma GateMessagesAreDistinguishable(limit: int)
    ensures Contains(PreferencesMessage, "preferences")
    ensures !Contains(LimitMessage(limit), "preferences")
    ensures Contains(LimitMessage(limit), "limit")
  {
    PreferencesMessageMentionsPreferences();
    LimitMessageMentionsLimit(limit);
    LimitMessageHasNoF(limit);
    if Contains(LimitMessage(limit), "preferences") {
      ContainsChars(LimitMessage(limit), "preferences", 'f');
    }
  }

  /**
   * `ratePlan`. A missing rating or one outside 1..5 is rejected before any
   * lookup; an unknown plan gives an empty result; a foreign plan is
   * rejected and nothing is saved; otherwise only the rating changes.
   */
  function RatePlan(plans: Table<TripPlan>, planId: int, userId: string, rating: Option<int>): (r: Result<(Table<TripPlan>, Option<TripPlan>), Exception>)
    ensures !ValidRating(rating) <==> r == Failure(IllegalArgument(RatingMessage))
    ensures ValidRating(rating) && planId !in plans.rows ==> r == Success((plans, None))
    ensures ValidRating(rating) && planId in plans.rows && plans.rows[planId].userId != userId ==>
      r == Failure(IllegalState(RateForeignMessage))
    ensures ValidRating(rating) && planId in plans.rows && plans.rows[planId].userId == userId ==>
      r.Success? && r.value.1 == Some(plans.rows[planId].(rating := rating))
    ensures r.Success? && r.value.1.Some? ==>
      && planId in plans.rows && plans.rows[planId].userId == userId
      && r.value.1.value == plans.rows[planId].(rating := rating)
      && Find(r.value.0, planId) == r.value.1
      && (forall id :: id != planId ==> Find(r.value.0, id) == Find(plans, id))
      && r.value.0.nextId == plans.nextId
    ensures r.Success? && r.value.1.None? ==> r.value.0 == plans
    ensures r.Success? ==> (Valid(plans) ==> Valid(r.value.0)) && (RatingsValid(plans) ==> RatingsValid(r.value.0))
  {
    if rating.None? || rating.value < 1 || rating.value > 5 then
      Failure(IllegalArgument(RatingMessage))
    else
      match Find(plans, planId)
      case None => Success((plans, None))
      case Some(plan) =>
        if plan.userId != userId then Failure(IllegalState(RateForeignMessage))
        else
          var rated := plan.(rating := rating);
          Success((Put(plans, planId, rated), Some(rated)))
  }

  /** Rating twice with the same value stores what rating once stores. */
  lemma RatePlanIdempotent(plans: Table<TripPlan>, planId: int, userId: string, rating: Option<int>)
    requires RatePlan(plans, planId, userId, rating).Success?
    ensures var once := RatePlan(plans, planId, userId, rating).value;
      RatePlan(once.0, planId, userId, rating) == Success(once)
  {
    var once := RatePlan(plans, planId, userId, rating).value;
    if once.1.Some? {
      assert once.0.rows[planId] == once.1.value;
      assert once.0.rows[planId := once.1.value] == once.0.rows;
    }
  }

  /**
   * `deletePlan`. False for an unknown id; a foreign plan is rejected and
   * stays stored; the owner's plan is removed and the result is true.
   */
  function DeletePlan(plans: Table<TripPlan>, planId: int, userId: string): (r: Result<(Table<TripPlan>, bool), Exception>)
    ensures planId !in plans.rows <==> r == Success((plans, false))
    ensures planId in plans.rows && plans.rows[planId].userId != userId <==> r == Failure(IllegalState(DeleteForeignMessage))
    ensures planId in plans.rows && plans.rows[planId].userId == userId <==> r.Success? && r.value.1
    ensures r.Success? && r.value.1 ==>
      && planId in plans.rows && plans.rows[planId].userId == userId
      && Find(r.value.0, planId).None?
      && (forall id :: id != planId ==> Find(r.value.0, id) == Find(plans, id))
      && (Valid(plans) ==> Valid(r.value.0))
      && r.value.0.nextId == plans.nextId
  {
    match Find(plans, planId)
    case None => Success((plans, false))
    case Some(plan) =>
      if plan.userId != userId then Failure(IllegalState(DeleteForeignMessage))
      else Success((Remove(plans, planId), true))
  }

  /** Deleting a plan just generated, as its owner, gives back the plans stored before. */
  lemma GenerateThenDeleteRestoresPlans(prefs: PrefStore, plans: Table<TripPlan>, usage: UsageLimits, ai: Option<ChatModel>,
                                        userId: string, noteId: int, note: Note)
    requires Valid(plans)
    requires GeneratePlan(prefs, plans, usage, ai, userId, noteId, note).Success?
    ensures var (plans', row) := GeneratePlan(prefs, plans, usage, ai, userId, noteId, note).value;
      var d := DeletePlan(plans', row.id, userId);
      d.Success? && d.value.1 && d.value.0.rows == plans.rows
  {
    var (plans', row) := GeneratePlan(prefs, plans, usage, ai, userId, noteId, note).value;
    InsertThenRemoveRestores(plans, plans', row, userId);
  }

  lemma InsertThenRemoveRestores(plans: Table<TripPlan>, plans': Table<TripPlan>, row: Row<TripPlan>, userId: string)
    requires row.id !in plans.rows && Find(plans', row.id) == Some(row.value) && row.value.userId == userId
    requires forall id :: id != row.id ==> Find(plans', id) == Find(plans, id)
    ensures var d := DeletePlan(plans', row.id, userId);
      d.Success? && d.value.1 && d.value.0.rows == plans.rows
  {
    var d := DeletePlan(plans', row.id, userId);
    forall k | k in d.value.0.rows || k in plans.rows
      ensures k in d.value.0.rows && k in plans.rows && d.value.0.rows[k] == plans.rows[k]
    {
      assert Find(d.value.0, k) == Find(plans, k);
    }
    assert d.value.0.rows.Keys == plans.rows.Keys;
  }
}
