/**
 * `buildTripPlanPrompt`: the text sent to the language model, written the
 * way the `StringBuilder` writes it, and a line-by-line reference definition
 * it is proved equal to.
 */
module Prompt {
  import opened Text
  import opened Enums
  import opened Preferences
  import opened Notes
  import opened Seqs

  /** The request that opens the prompt. */
  const Intro: string :=
    "You are a professional travel planner. Generate a detailed trip plan based on the following information:\n\n"

  /** The request that closes the prompt. */
  const Closing: string :=
    "Please generate a day-by-day trip plan with specific attractions and activities. "
    + "Format the plan as a clear list organized by days. "
    + "Include morning, afternoon, and evening activities for each day. "
    + "Make sure recommendations align with the traveler's preferences and budget."

  /** What separates, and at first also follows, each value on a multi-valued line. */
  const Separator: string := ", "

  /** The label that opens a category's line. */
  function Label(c: Category): string {
    match c
    case BudgetCategory => "- Budget: "
    case PaceCategory => "- Travel Pace: "
    case InterestsCategory => "- Interests: "
    case AccommodationCategory => "- Accommodation Style: "
    case TransportCategory => "- Preferred Transport: "
    case FoodCategory => "- Food Preferences: "
    case SeasonCategory => "- Preferred Season: "
  }

  /** The display names of a sequence of values, in the same order. */
  function Names<T>(xs: seq<T>, name: T -> string): (r: seq<string>)
    ensures |r| == |xs|
    ensures forall i :: 0 <= i < |xs| ==> r[i] == name(xs[i])
  {
    if xs == [] then [] else [name(xs[0])] + Names(xs[1..], name)
  }

  function InterestNames(xs: seq<Interest>): (r: seq<string>)
    ensures |r| == |xs| && forall i :: 0 <= i < |r| ==> Printable(r[i])
  {
    Names(xs, (x: Interest) => x.DisplayName())
  }

  function TransportNames(xs: seq<Transport>): (r: seq<string>)
    ensures |r| == |xs| && forall i :: 0 <= i < |r| ==> Printable(r[i])
  {
    Names(xs, (x: Transport) => x.DisplayName())
  }

  function FoodNames(xs: seq<FoodPreference>): (r: seq<string>)
    ensures |r| == |xs| && forall i :: 0 <= i < |r| ==> Printable(r[i])
  {
    Names(xs, (x: FoodPreference) => x.DisplayName())
  }

  /** The display names a filled category prints, one for a single-valued category. */
  function Values(p: Preferences, c: Category): (r: seq<string>)
    requires IsFilled(p, c)
    ensures |r| > 0
    ensures forall i :: 0 <= i < |r| ==> Printable(r[i])
  {
    match c
    case BudgetCategory => [p.budget.value.DisplayName()]
    case PaceCategory => [p.pace.value.DisplayName()]
    case InterestsCategory => InterestNames(p.interests.value)
    case AccommodationCategory => [p.accommodationStyle.value.DisplayName()]
    case TransportCategory => TransportNames(p.transport.value)
    case FoodCategory => FoodNames(p.foodPreferences.value)
    case SeasonCategory => [p.season.value.DisplayName()]
  }

  /** Reference: a category's line is its label, its values joined by ", ", and a line break. */
  function Line(p: Preferences, c: Category): string
    requires IsFilled(p, c)
  {
    Label(c) + Join(Values(p, c), Separator) + "\n"
  }

  /** A category's line when it is filled, nothing otherwise. */
  function Render(p: Preferences, c: Category): string {
    if IsFilled(p, c) then Line(p, c) else ""
  }

  function Renderer(p: Preferences): Category -> string {
    c => Render(p, c)
  }

  /** The text before the preference lines. */
  function Head(note: Note): string {
    Intro + "Trip Note:\n" + "Title: " + note.title + "\n" + "Description: " + note.content + "\n\n"
    + "Traveler Preferences:\n"
  }

  /** Reference prompt: the head, one line per filled category in category order, a blank line, the closing request. */
  function ReferencePrompt(note: Note, p: Preferences): string {
    Head(note) + ConcatMap(FilledCategories(p), Renderer(p)) + "\n" + Closing
  }

  /** The builder step for a single value: label, display name, line break. */
  function AppendValue(b: string, heading: string, name: string): string {
    b + heading + name + "\n"
  }

  /**
   * The builder steps for a non-empty set: the label, every display name
   * followed by ", ", then `setLength(length() - 2)` and a line break.
   */
  function AppendList(b: string, heading: string, names: seq<string>): string
    requires |names| > 0
  {
    var written := b + heading + Terminated(names, Separator);
    written[..|written| - 2] + "\n"
  }

  /** The `if` block of each category in the builder, in the order the builder runs them. */
  function AppendBudget(b: string, p: Preferences): string {
    if p.budget.Some? then AppendValue(b, "- Budget: ", p.budget.value.DisplayName()) else b
  }

  function AppendPace(b: string, p: Preferences): string {
    if p.pace.Some? then AppendValue(b, "- Travel Pace: ", p.pace.value.DisplayName()) else b
  }

  function AppendInterests(b: string, p: Preferences): string {
    if NonEmpty(p.interests) then AppendList(b, "- Interests: ", InterestNames(p.interests.value)) else b
  }

  function AppendAccommodation(b: string, p: Preferences): string {
    if p.accommodationStyle.Some? then AppendValue(b, "- Accommodation Style: ", p.accommodationStyle.value.DisplayName()) else b
  }

  function AppendTransport(b: string, p: Preferences): string {
    if NonEmpty(p.transport) then AppendList(b, "- Preferred Transport: ", TransportNames(p.transport.value)) else b
  }

  function AppendFood(b: string, p: Preferences): string {
    if NonEmpty(p.foodPreferences) then AppendList(b, "- Food Preferences: ", FoodNames(p.foodPreferences.value)) else b
  }

  function AppendSeason(b: string, p: Preferences): string {
    if p.season.Some? then AppendValue(b, "- Preferred Season: ", p.season.value.DisplayName()) else b
  }

  /** `buildTripPlanPrompt` as the builder runs it: the head, the seven guarded blocks, the closing request. */
  function BuildTripPlanPrompt(note: Note, p: Preferences): string {
    var b := Intro;
    var b := b + "Trip Note:\n";
    var b := b + "Title: " + note.title + "\n";
    var b := b + "Description: " + note.content + "\n\n";
    var b := b + "Traveler Preferences:\n";
    var b := AppendSeason(AppendFood(AppendTransport(AppendAccommodation(AppendInterests(AppendPace(AppendBudget(b, p), p), p), p), p), p), p);
    b + "\n" + Closing
  }

  /** Cutting the trailing ", " leaves the names joined with no separator after the last one. */
  lemma AppendListJoins(b: string, heading: string, names: seq<string>)
    requires |names| > 0
    ensures AppendList(b, heading, names) == b + heading + Join(names, Separator) + "\n"
  {
    TerminatedIsJoinPlusSep(names, Separator);
    var written := b + heading + Terminated(names, Separator);
    assert written == (b + heading + Join(names, Separator)) + Separator;
    assert written[..|written| - 2] == b + heading + Join(names, Separator);
  }

  /** One builder step appends the category's reference line when it is filled, nothing otherwise. */
  function Step(b: string, p: Preferences, c: Category): string {
    if IsFilled(p, c) then b + Line(p, c) else b
  }

  /** The builder steps for the categories `cs`, in order. */
  function Steps(b: string, p: Preferences, cs: seq<Category>): string {
    AppendEach(b, cs, FilledTest(p), Renderer(p))
  }

  /** Each guarded block of the builder is the step of its category. */
  lemma BudgetBlockIsStep(b: string, p: Preferences)
    ensures AppendBudget(b, p) == Step(b, p, BudgetCategory)
  {
  }

  lemma PaceBlockIsStep(b: string, p: Preferences)
    ensures AppendPace(b, p) == Step(b, p, PaceCategory)
  {
  }

  lemma InterestsBlockIsStep(b: string, p: Preferences)
    ensures AppendInterests(b, p) == Step(b, p, InterestsCategory)
  {
    if NonEmpty(p.interests) { AppendListJoins(b, "- Interests: ", InterestNames(p.interests.value)); }
  }

  lemma AccommodationBlockIsStep(b: string, p: Preferences)
    ensures AppendAccommodation(b, p) == Step(b, p, AccommodationCategory)
  {
  }

  lemma TransportBlockIsStep(b: string, p: Preferences)
    ensures AppendTransport(b, p) == Step(b, p, TransportCategory)
  {
    if NonEmpty(p.transport) { AppendListJoins(b, "- Preferred Transport: ", TransportNames(p.transport.value)); }
  }

  lemma FoodBlockIsStep(b: string, p: Preferences)
    ensures AppendFood(b, p) == Step(b, p, FoodCategory)
  {
    if NonEmpty(p.foodPreferences) { AppendListJoins(b, "- Food Preferences: ", FoodNames(p.foodPreferences.value)); }
  }

  lemma SeasonBlockIsStep(b: string, p: Preferences)
    ensures AppendSeason(b, p) == Step(b, p, SeasonCategory)
  {
  }

  /** Seven steps over the categories in order, unrolled. */
  lemma StepsOverAllCategories(b: string, p: Preferences)
    ensures Steps(b, p, AllCategories)
      == Step(Step(Step(Step(Step(Step(Step(b, p, BudgetCategory), p, PaceCategory), p, InterestsCategory),
           p, AccommodationCategory), p, TransportCategory), p, FoodCategory), p, SeasonCategory)
  {
    var s7: seq<Category> := [];
    var s6 := [SeasonCategory] + s7;
    var s5 := [FoodCategory] + s6;
    var s4 := [TransportCategory] + s5;
    var s3 := [AccommodationCategory] + s4;
    var s2 := [InterestsCategory] + s3;
    var s1 := [PaceCategory] + s2;
    var s0 := [BudgetCategory] + s1;
    assert s0 == AllCategories;
    assert s0[1..] == s1 && s1[1..] == s2 && s2[1..] == s3 && s3[1..] == s4;
    assert s4[1..] == s5 && s5[1..] == s6 && s6[1..] == s7;
    var b1 := Step(b, p, BudgetCategory);
    var b2 := Step(b1, p, PaceCategory);
    var b3 := Step(b2, p, InterestsCategory);
    var b4 := Step(b3, p, AccommodationCategory);
    var b5 := Step(b4, p, TransportCategory);
    var b6 := Step(b5, p, FoodCategory);
    assert Steps(b, p, s0) == Steps(b1, p, s1);
    assert Steps(b1, p, s1) == Steps(b2, p, s2);
    assert Steps(b2, p, s2) == Steps(b3, p, s3);
    assert Steps(b3, p, s3) == Steps(b4, p, s4);
    assert Steps(b4, p, s4) == Steps(b5, p, s5);
    assert Steps(b5, p, s5) == Steps(b6, p, s6);
  }

  /** The builder's seven guarded blocks are the steps over the categories in order. */
  lemma BuildIsSteps(note: Note, p: Preferences)
    ensures BuildTripPlanPrompt(note, p) == Steps(Head(note), p, AllCategories) + "\n" + Closing
  {
    var h := Head(note);
    var b1 := AppendBudget(h, p);
    var b2 := AppendPace(b1, p);
    var b3 := AppendInterests(b2, p);
    var b4 := AppendAccommodation(b3, p);
    var b5 := AppendTransport(b4, p);
    var b6 := AppendFood(b5, p);
    var b7 := AppendSeason(b6, p);
    assert BuildTripPlanPrompt(note, p) == b7 + "\n" + Closing;
    BudgetBlockIsStep(h, p);
    PaceBlockIsStep(b1, p);
    InterestsBlockIsStep(b2, p);
    AccommodationBlockIsStep(b3, p);
    TransportBlockIsStep(b4, p);
    FoodBlockIsStep(b5, p);
    SeasonBlockIsStep(b6, p);
    StepsOverAllCategories(h, p);
  }

  /** The builder writes exactly the reference prompt. */
  lemma BuildTripPlanPromptIsReference(note: Note, p: Preferences)
    ensures BuildTripPlanPrompt(note, p) == ReferencePrompt(note, p)
  {
    BuildIsSteps(note, p);
    AppendEachIsConcatOfKept(Head(note), AllCategories, FilledTest(p), Renderer(p));
  }

  /** A category line ends in its last display name: no dangling separator before the line break. */
  lemma LineHasNoTrailingSeparator(p: Preferences, c: Category)
    requires IsFilled(p, c)
    ensures var l := Line(p, c); |l| >= 2 && l[|l| - 1] == '\n' && l[|l| - 2] != ' ' && l[|l| - 2] != ','
  {
    var vs := Values(p, c);
    var last := vs[|vs| - 1];
    var j := Join(vs, Separator);
    JoinEndsWithLast(vs, Separator);
    assert Printable(last);
    assert j[|j| - 1] == last[|last| - 1];
    var l := Line(p, c);
    assert l == Label(c) + j + "\n";
    assert l[|l| - 2] == j[|j| - 1];
  }
}
