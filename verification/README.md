# tenxdevs trip planner: a Dafny model of its core

tenxdevs is a Spring Boot travel planner. Users keep trip notes and state
travel preferences in seven categories. For one of their notes they can then
ask an AI chat model for a day-by-day trip plan, and later rate or delete
that plan. Every request is authenticated by a Supabase JWT in the
`Authorization: Bearer …` header. If no JWT service is configured, every
caller is the fixed user `mock-user-id`. The mock auth controller supplies
tokens for local runs.

This project models that core as pure functions over immutable stores and
proves what each operation promises. It has these modules:

- **Data model**
  - `Enums`: the seven preference enums and their display names.
  - `Preferences`: the seven-category record and the count of filled categories.
  - `TripPlans`: the plan record, its optional 1..5 rating, and the plan queries.
  - `Notes`: the note record and the owner-scoped note queries, including the newest-first listing.
- **Stores**
  - `Tables`: a table of rows keyed by generated ids that are never reused.
  - `PreferencesService`: one preference record per user, and the upsert that overwrites all seven categories.
  - `NoteService`: owner-scoped create, update and delete.
- **Trip plans**
  - `Prompt`: the prompt builder, together with a reference definition it is proved equal to. The reference says that a category line appears iff that category is filled, in a fixed order, and that a set is joined by `, ` with no trailing separator.
  - `TripPlanService`: the generation gate (preferences, then usage limit, then the model call, then save), rating and deletion.
  - `TripPlanController`: the status codes and flags of every trip-plan endpoint, with `canGeneratePlan` proved to foretell what `generatePlan` answers.
- **HTTP and identity**
  - `NoteController`: the note endpoints. The title is checked before the content, and another user's note answers exactly like a missing one.
  - `Jwt`: the claims mapping (subject, principal and authority) over an opaque token parser.
  - `RequestAuth`: the `extractUserId` that both controllers share.
  - `MockAuth`: the in-memory user and session state machine.
- **Cross-cutting**
  - `Ownership`: the invariant linking plans to notes. Every stored plan names a note id that has been handed out, and while that note exists it belongs to the plan's owner. Every mutating endpoint preserves the invariant. It is what makes `getPlansByNote`, which checks only the note's owner, return only the caller's plans. A concrete store shows the guarantee fails without the invariant.

Java `null` is `Option`. A `NullPointerException` is a 500 response with no body. Exceptions are the `Exception` datatype. The usage limits, the chat model, the token parser and the codecs of the mock tokens are function-valued parameters.

Two behaviours follow the code although they look unintended. Neither is the bug described under Findings:

- `getPlanById` answers 403 for another user's plan, where note reads answer 404. `TripPlanController.PlanById` follows the code.
- A failed model call is reported with the prefix "Failed to generate trip plan: " twice. The service wraps the error with the prefix, and the controller adds it again. `TripPlanController.GenerateModelFailure` states the message as the code builds it.

## Model

| member | source | states |
|---|---|---|
| Enums.DisplayNamesDistinct | src/main/java/eu/robm15/tenxdevs/model/Interest.java:4-11 | in each of the seven enums, different constants have different display names, so a prompt line names the values unambiguously |
| Preferences.FilledCountIsFilledCategories | src/main/java/eu/robm15/tenxdevs/service/TripPlanService.java:47-57 | the seven-step tally equals the number of categories filled, where a set counts only if it is present and non-empty |
| Preferences.Blank | src/main/java/eu/robm15/tenxdevs/model/TravelPreferences.java:29-79 | a fresh record has no id, no owner and no filled category, so its count is zero |
| Preferences.OneCategoryMovesCountByOne | src/main/java/eu/robm15/tenxdevs/service/TripPlanService.java:47-57 | changing one category (one setter) moves the filled count by at most one |
| PreferencesService.Get | src/main/java/eu/robm15/tenxdevs/service/TravelPreferencesService.java:22-24 | a record is found iff the user has one, and in a valid store it is owned by that user and has an id |
| PreferencesService.HasPreferences | src/main/java/eu/robm15/tenxdevs/service/TravelPreferencesService.java:69-71 | true exactly when the lookup finds a record |
| PreferencesService.Overwrite | src/main/java/eu/robm15/tenxdevs/service/TravelPreferencesService.java:37-47 | all seven categories are taken from the payload, including cleared ones, while id and owner stay those of the stored record |
| PreferencesService.Save | src/main/java/eu/robm15/tenxdevs/service/TravelPreferencesService.java:33-53 | corrected save: afterwards the caller's record has the payload's categories and the caller as owner. An existing record keeps its id, a new one gets a fresh id whatever id the client sent, and every other user's record is unchanged |
| PreferencesService.SaveAsWritten | src/main/java/eu/robm15/tenxdevs/service/TravelPreferencesService.java:48-51 | save as written: the same as the corrected save unless the caller has no record and the payload's id names another user's record. Then that record is overwritten with the payload and handed to the caller, and its former owner has no preferences left |
| PreferencesService.SaveAsWrittenTakesOverForeignRecord | src/main/java/eu/robm15/tenxdevs/service/TravelPreferencesService.java:50-51 | a concrete store where user "b" saves a payload carrying user "a"'s record id, after which "b" owns that record and "a" has no preferences |
| PreferencesService.SaveIgnoresClientId | src/main/java/eu/robm15/tenxdevs/service/TravelPreferencesService.java:48-51 | the corrected save is the written one with the client-sent id dropped, and the two agree whenever that id names no other user's record |
| PreferencesService.Delete | src/main/java/eu/robm15/tenxdevs/service/TravelPreferencesService.java:60-62 | only the caller's record is removed, and all other users' records stay unchanged |
| PreferencesService.SaveThenHasPreferences | src/main/java/eu/robm15/tenxdevs/service/TravelPreferencesService.java:33-71 | after saving, the user has preferences, and they carry the saved categories |
| PreferencesService.SaveIdempotent | src/main/java/eu/robm15/tenxdevs/service/TravelPreferencesService.java:33-53 | saving the same payload twice leaves the store as saving it once |
| PreferencesService.DeleteThenSaveGetsFreshId | src/main/java/eu/robm15/tenxdevs/service/TravelPreferencesService.java:48-51 | a record saved after a delete gets a new id, never the deleted one |
| Notes.FindByIdAndUserId | src/main/java/eu/robm15/tenxdevs/repository/NoteRepository.java:33 | a note is found iff it exists and the user owns it |
| Notes.ExistsByIdAndUserId | src/main/java/eu/robm15/tenxdevs/repository/NoteRepository.java:51 | true exactly when the owner-scoped lookup finds the note |
| Notes.DeleteByIdAndUserId | src/main/java/eu/robm15/tenxdevs/repository/NoteRepository.java:42 | the owner's note is gone afterwards, another user's note is untouched, and no other row changes |
| Notes.InsertNewest | src/main/java/eu/robm15/tenxdevs/repository/NoteRepository.java:23 | inserting into a newest-first list keeps it newest first, adds exactly the new row and loses none |
| Notes.InsertKeepsListing | src/main/java/eu/robm15/tenxdevs/repository/NoteRepository.java:23 | inserting another owned row into a listing of distinct owned rows keeps it such a listing |
| Notes.FindByUserIdOrderByCreatedAtDesc | src/main/java/eu/robm15/tenxdevs/repository/NoteRepository.java:23 | the result lists each of the user's notes once, only the user's notes, newest first |
| TripPlans.FindByUserId | src/main/java/eu/robm15/tenxdevs/repository/TripPlanRepository.java:16 | exactly the plans the user owns, unchanged |
| TripPlans.FindByNoteId | src/main/java/eu/robm15/tenxdevs/repository/TripPlanRepository.java:21 | exactly the plans generated from the note, whoever owns them |
| TripPlans.FindByUserIdAndNoteId | src/main/java/eu/robm15/tenxdevs/repository/TripPlanRepository.java:26 | the plans that both queries above return |
| NoteService.CreateNote | src/main/java/eu/robm15/tenxdevs/service/NoteService.java:35-38 | a new row under a fresh id holds exactly the given owner, title and content, the owner can find it, and no other row changes |
| NoteService.UpdateNote | src/main/java/eu/robm15/tenxdevs/service/NoteService.java:72-84 | an owned note gets the new title and content and keeps its owner and creation time. Otherwise the answer is empty and the store unchanged |
| NoteService.DeleteNote | src/main/java/eu/robm15/tenxdevs/service/NoteService.java:95-101 | true iff the caller owned the note, which is then gone. On false the store is unchanged |
| NoteService.OtherUsersNotesUntouched | src/main/java/eu/robm15/tenxdevs/service/NoteService.java:72-101 | update and delete by one user never change a note of another user |
| NoteService.CreateThenDeleteRestoresRows | src/main/java/eu/robm15/tenxdevs/service/NoteService.java:95-101 | creating a note and deleting it again gives back the original rows |
| NoteService.UpdateIdempotent | src/main/java/eu/robm15/tenxdevs/service/NoteService.java:72-84 | repeating an update changes nothing further |
| Text.TrimEmptyIffBlank | src/main/java/eu/robm15/tenxdevs/controller/NoteController.java:88 | a trimmed string is empty iff every character is whitespace or control, so "blank" has its intended meaning |
| Text.ToUpper | src/main/java/eu/robm15/tenxdevs/service/SupabaseJwtService.java:48 | same length and no lower-case letter left, and every character that was not lower case is kept |
| Text.ToUpperIdempotent | src/main/java/eu/robm15/tenxdevs/service/SupabaseJwtService.java:48 | upper-casing twice is upper-casing once |
| Text.IntToStringRoundTrip | src/main/java/eu/robm15/tenxdevs/service/TripPlanService.java:77-78 | the decimal rendering of the daily limit in the message parses back to the limit |
| Text.SplitJoin | src/main/java/eu/robm15/tenxdevs/service/TripPlanService.java:134-140 | a list line joined with ", " splits back into the display names, since none contains a comma |
| Text.TerminatedIsJoinPlusSep | src/main/java/eu/robm15/tenxdevs/service/TripPlanService.java:136-138 | appending each name followed by ", " is the joined names plus one trailing ", ", which is what the length cut removes |
| Prompt.AppendListJoins | src/main/java/eu/robm15/tenxdevs/service/TripPlanService.java:134-140 | appending a set line leaves the heading, the names joined by ", " and a newline, with no trailing separator |
| Prompt.BudgetBlockIsStep | src/main/java/eu/robm15/tenxdevs/service/TripPlanService.java:126-128 | the budget block adds the budget line iff the budget is filled |
| Prompt.PaceBlockIsStep | src/main/java/eu/robm15/tenxdevs/service/TripPlanService.java:130-132 | the pace block adds the pace line iff the pace is filled |
| Prompt.InterestsBlockIsStep | src/main/java/eu/robm15/tenxdevs/service/TripPlanService.java:134-140 | the interests block adds the interests line iff interests are present and non-empty |
| Prompt.AccommodationBlockIsStep | src/main/java/eu/robm15/tenxdevs/service/TripPlanService.java:142-144 | the accommodation block adds its line iff the style is filled |
| Prompt.TransportBlockIsStep | src/main/java/eu/robm15/tenxdevs/service/TripPlanService.java:146-152 | the transport block adds its line iff transport is present and non-empty |
| Prompt.FoodBlockIsStep | src/main/java/eu/robm15/tenxdevs/service/TripPlanService.java:154-160 | the food block adds its line iff food preferences are present and non-empty |
| Prompt.SeasonBlockIsStep | src/main/java/eu/robm15/tenxdevs/service/TripPlanService.java:162-164 | the season block adds its line iff the season is filled |
| Prompt.StepsOverAllCategories | src/main/java/eu/robm15/tenxdevs/service/TripPlanService.java:126-164 | the seven blocks in source order are the filled categories' lines, in the fixed category order |
| Prompt.BuildIsSteps | src/main/java/eu/robm15/tenxdevs/service/TripPlanService.java:113-173 | the prompt is the header with the note's title and description, then the category blocks, then a blank line and the fixed closing instructions |
| Prompt.BuildTripPlanPromptIsReference | src/main/java/eu/robm15/tenxdevs/service/TripPlanService.java:113-173 | the builder equals the reference prompt: header, one line per filled category in the order Budget, Travel Pace, Interests, Accommodation Style, Preferred Transport, Food Preferences, Preferred Season, then the closing |
| Prompt.LineHasNoTrailingSeparator | src/main/java/eu/robm15/tenxdevs/service/TripPlanService.java:138 | every category line ends in a newline that no comma or space precedes |
| Jwt.ExtractSubject | src/main/java/eu/robm15/tenxdevs/service/SupabaseJwtService.java:65-81 | the subject of a token that parses, and absent for one that does not, never an exception |
| Jwt.Authority | src/main/java/eu/robm15/tenxdevs/service/SupabaseJwtService.java:47-49 | "ROLE_" followed by the upper-cased role, or "ROLE_USER" without a role, with no lower-case letter after the prefix |
| Jwt.ValidateToken | src/main/java/eu/robm15/tenxdevs/service/SupabaseJwtService.java:29-60 | fails with "Invalid JWT token: " and the error exactly when parsing fails or the email or role claim is not a string, with the email read first. Otherwise the principal is the email, or the subject without an email, and the single authority is the role's |
| Jwt.ValidateAgreesWithExtract | src/main/java/eu/robm15/tenxdevs/service/SupabaseJwtService.java:29-81 | a token that does not verify is rejected by both readings. A token that validates has the subject that extraction reads, and without an email claim that subject is the principal |
| Jwt.ExtractAcceptsWhatValidateRejects | src/main/java/eu/robm15/tenxdevs/service/SupabaseJwtService.java:43-44 | a verified token whose email claim is not a string is rejected by validation, while extraction still returns its subject |
| Jwt.AuthorityIgnoresCase | src/main/java/eu/robm15/tenxdevs/service/SupabaseJwtService.java:47-49 | roles that differ only in letter case get the same authority |
| Jwt.AuthorityDeterminesUpperRole | src/main/java/eu/robm15/tenxdevs/service/SupabaseJwtService.java:47-49 | equal authorities of two roles mean the roles agree once upper-cased |
| RequestAuth.BearerToken | src/main/java/eu/robm15/tenxdevs/controller/TripPlanController.java:324-338 | a token exists iff the header is present and starts with "Bearer ", and the header is that prefix followed by the token |
| RequestAuth.BearerRoundTrip | src/main/java/eu/robm15/tenxdevs/controller/TripPlanController.java:324-338 | the token of a header built from a token is that token |
| RequestAuth.ExtractUserId | src/main/java/eu/robm15/tenxdevs/controller/NoteController.java:228-242 | "mock-user-id" without a JWT service, absent for a missing or non-Bearer header, otherwise the token's subject |
| RequestAuth.IdentifiedIffSubject | src/main/java/eu/robm15/tenxdevs/controller/TripPlanController.java:324-338 | with a JWT service and a Bearer header, the caller is identified iff the token has a subject, and then the caller is that subject |
| TripPlanService.HasMinimumPreferences | src/main/java/eu/robm15/tenxdevs/service/TripPlanService.java:39-58 | true iff the user has a record with at least three filled categories, and false for a user without one |
| TripPlanService.CallModel | src/main/java/eu/robm15/tenxdevs/service/TripPlanService.java:90-103 | the mock plan text without a model, the model's text when it answers, and otherwise a runtime failure whose message is "Failed to generate trip plan: " followed by the model's error |
| TripPlanService.CallAndSave | src/main/java/eu/robm15/tenxdevs/service/TripPlanService.java:90-107 | a model failure saves nothing. Success saves one unrated plan of the user for the note under a fresh id, and no other plan changes |
| TripPlanService.GeneratePlan | src/main/java/eu/robm15/tenxdevs/service/TripPlanService.java:70-108 | the preference gate and then the usage gate fail with their messages before anything else. Gate failures and only they are IllegalState. Every other failure is the model failure, and success stores exactly one new unrated plan of the caller for the note |
| TripPlanService.GeneratePlanCallsModel | src/main/java/eu/robm15/tenxdevs/service/TripPlanService.java:86-103 | once both gates pass, generation fails exactly when the configured model fails on the prompt built from the note and the stored preferences |
| TripPlanService.PreferenceGateComesFirst | src/main/java/eu/robm15/tenxdevs/service/TripPlanService.java:72-74 | without enough preferences the answer is the preference failure, whatever the usage limits and the model |
| TripPlanService.UsageGateComesBeforeTheModel | src/main/java/eu/robm15/tenxdevs/service/TripPlanService.java:77-80 | past the limit the answer is the limit failure, whatever the model does |
| TripPlanService.GateMessagesAreDistinguishable | src/main/java/eu/robm15/tenxdevs/controller/TripPlanController.java:144-149 | the preference message contains "preferences", and the limit message contains "limit" but not "preferences", so the controller's dispatch on the message tells the gates apart |
| TripPlanService.RatePlan | src/main/java/eu/robm15/tenxdevs/service/TripPlanService.java:205-225 | a missing or out-of-range rating fails before any lookup. An unknown plan gives empty with nothing changed, and another user's plan fails. Otherwise only that plan's rating changes |
| TripPlanService.RatePlanIdempotent | src/main/java/eu/robm15/tenxdevs/service/TripPlanService.java:205-225 | rating a plan again with the same value changes nothing further |
| TripPlanService.DeletePlan | src/main/java/eu/robm15/tenxdevs/service/TripPlanService.java:231-247 | false for an unknown id and a failure for another user's plan, in both cases with the store unchanged. For the owner, only that plan is removed |
| TripPlanService.GenerateThenDeleteRestoresPlans | src/main/java/eu/robm15/tenxdevs/service/TripPlanService.java:231-247 | deleting a freshly generated plan as its owner gives back the original plans |
| TripPlanController.Check | src/main/java/eu/robm15/tenxdevs/controller/TripPlanController.java:50-97 | the first failing check, in the order identity, note ownership, preferences, usage limit, with each outcome characterised by the checks before it |
| TripPlanController.Eligibility | src/main/java/eu/robm15/tenxdevs/controller/TripPlanController.java:63-96 | `can_generate` is set iff every check passes. A reason is given iff one fails, with only the first failure's flag. `daily_limit` appears on a reached limit and on success, and `remaining_usage` only on success |
| TripPlanController.CanGenerate | src/main/java/eu/robm15/tenxdevs/controller/TripPlanController.java:50-97 | 401 with no body iff the caller is unknown, otherwise 200 with the eligibility fields above |
| TripPlanController.GateFailure | src/main/java/eu/robm15/tenxdevs/controller/TripPlanController.java:139-151 | a message with "preferences" sets only `missing_preferences`, a message with "limit" but not "preferences" sets `limit_exceeded` and `daily_limit`, and any other message sets no flag |
| TripPlanController.GeneratedBody | src/main/java/eu/robm15/tenxdevs/controller/TripPlanController.java:132-135 | a success body carrying the plan and the remaining usage, and no gate flag |
| TripPlanController.Answer | src/main/java/eu/robm15/tenxdevs/controller/TripPlanController.java:130-158 | success gives 201 with the saved plan. An IllegalState gives 400 with its message and flag. Any other failure gives 500 with the prefixed message. Plans change only on success |
| TripPlanController.Generate | src/main/java/eu/robm15/tenxdevs/controller/TripPlanController.java:105-159 | 401 iff the caller is unknown, 404 "Note not found" for a note the caller does not own, and 201 or 500 exactly when every check passes. Plans change only on 201 |
| TripPlanController.GenerateCreated | src/main/java/eu/robm15/tenxdevs/controller/TripPlanController.java:130-137 | a 201 returns the new plan: the caller's, for the requested note, unrated, under a fresh id, with every other plan unchanged and the remaining usage reported |
| TripPlanController.GenerateMissingPreferences | src/main/java/eu/robm15/tenxdevs/controller/TripPlanController.java:139-151 | too few preferences give 400 with the service's message and `missing_preferences`, without `limit_exceeded` |
| TripPlanController.GenerateLimitExceeded | src/main/java/eu/robm15/tenxdevs/controller/TripPlanController.java:139-151 | a reached limit gives 400 with the limit message, `limit_exceeded` and `daily_limit`, without `missing_preferences` |
| TripPlanController.GeneratePassedRaisesNoFlag | src/main/java/eu/robm15/tenxdevs/controller/TripPlanController.java:130-158 | when every check passes, neither gate flag is in the response |
| TripPlanController.GenerateModelFailure | src/main/java/eu/robm15/tenxdevs/controller/TripPlanController.java:153-158 | a 500 happens only after every check passed and the configured model failed on the prompt. Its message carries the prefix twice, followed by the model's error |
| TripPlanController.PlansByNote | src/main/java/eu/robm15/tenxdevs/controller/TripPlanController.java:168-187 | 401 for an unknown caller and 404 unless the caller owns the note. Otherwise 200 with exactly the plans generated from that note |
| TripPlanController.PlanById | src/main/java/eu/robm15/tenxdevs/controller/TripPlanController.java:196-221 | 401 for an unknown caller, 404 iff the plan is unknown, 403 iff it is another user's, and 200 with the plan iff it is the caller's |
| TripPlanController.Rate | src/main/java/eu/robm15/tenxdevs/controller/TripPlanController.java:230-274 | 400 for an invalid rating, then 404 for an unknown plan, then 403 for another user's plan, each with its message and no change. Otherwise 200 with only that plan's rating changed |
| TripPlanController.DeleteById | src/main/java/eu/robm15/tenxdevs/controller/TripPlanController.java:283-319 | 404 for an unknown plan and 403 for another user's, each with no change. Otherwise 200 with exactly that plan removed |
| TripPlanController.CanGenerateForetellsGenerate | src/main/java/eu/robm15/tenxdevs/controller/TripPlanController.java:50-159 | `can_generate` is true iff generation reaches the model (201 or 500), and the eligibility flags equal the flags generation answers with |
| TripPlanController.GenerateKeepsForeignPlans | src/main/java/eu/robm15/tenxdevs/controller/TripPlanController.java:105-159 | generation never changes another user's plan |
| TripPlanController.RateKeepsForeignPlans | src/main/java/eu/robm15/tenxdevs/controller/TripPlanController.java:230-274 | rating never changes another user's plan |
| TripPlanController.DeleteKeepsForeignPlans | src/main/java/eu/robm15/tenxdevs/controller/TripPlanController.java:283-319 | deleting never removes another user's plan |
| NoteController.Rejection | src/main/java/eu/robm15/tenxdevs/controller/NoteController.java:88-100 | a request passes iff neither field is blank. A blank title gives 400 "Title is required" whatever the content, and only then is a blank content rejected with 400 "Content is required" |
| NoteController.Saved | src/main/java/eu/robm15/tenxdevs/controller/NoteController.java:103-110 | a success body with the message and the stored note |
| NoteController.GetAll | src/main/java/eu/robm15/tenxdevs/controller/NoteController.java:36-46 | 401 iff the caller is unknown. Otherwise 200 with each of the caller's notes, only those, newest first |
| NoteController.GetById | src/main/java/eu/robm15/tenxdevs/controller/NoteController.java:56-67 | 401 for an unknown caller, 200 with the note iff the caller owns it, otherwise 404 with no body |
| NoteController.Create | src/main/java/eu/robm15/tenxdevs/controller/NoteController.java:76-118 | 401 for an unknown caller, then the validation rejection. 201 iff both fields are non-blank, storing a new note of the caller with exactly those fields under a fresh id and changing no other row |
| NoteController.Update | src/main/java/eu/robm15/tenxdevs/controller/NoteController.java:129-178 | 401, then the validation rejection, then 200 iff the caller owns the note, else 404 "Note not found". On 200 only that note changes and the body holds its new state |
| NoteController.Delete | src/main/java/eu/robm15/tenxdevs/controller/NoteController.java:188-220 | 401, then 200 iff the caller owned the note, which is then gone, else 404 "Note not found" with nothing changed |
| NoteController.ForeignNoteLooksMissing | src/main/java/eu/robm15/tenxdevs/controller/NoteController.java:56-67 | for another user's note, get, update and delete answer exactly as if the note did not exist, and change nothing |
| NoteController.TitleCheckedFirst | src/main/java/eu/robm15/tenxdevs/controller/NoteController.java:88-93 | with a blank title the answer is "Title is required" whatever the content |
| NoteController.CreateThenGet | src/main/java/eu/robm15/tenxdevs/controller/NoteController.java:103-110 | a created note can be read back by its creator with the stored title and content |
| NoteController.UpdateThenGet | src/main/java/eu/robm15/tenxdevs/service/NoteService.java:72-84 | after a successful update, reading the note gives the new title and content |
| NoteController.DeleteThenGet | src/main/java/eu/robm15/tenxdevs/service/NoteService.java:95-101 | after a successful delete, reading the note gives 404, and a second delete answers 404 "Note not found" |
| MockAuth.PayloadRoundTrip | src/main/java/eu/robm15/tenxdevs/controller/MockAuthController.java:163-167 | the token payload decodes back to the user id and email it was built from |
| MockAuth.PayloadInjective | src/main/java/eu/robm15/tenxdevs/controller/MockAuthController.java:163-167 | different (user id, email) pairs give different payloads |
| MockAuth.UserObject | src/main/java/eu/robm15/tenxdevs/controller/MockAuthController.java:54-58 | the user object has exactly the fields id, email and role, with the user's values |
| MockAuth.OpenSession | src/main/java/eu/robm15/tenxdevs/controller/MockAuthController.java:46-68 | registers the token of the email's derived user as a session of that user with role "authenticated", returns it with the user, and keeps sessions well formed |
| MockAuth.Login | src/main/java/eu/robm15/tenxdevs/controller/MockAuthController.java:33-69 | 400 "Invalid credentials" and no change unless the email is known and the password matches. A null stored password, or a null email whose password matches, gives a 500. Otherwise a new session opens, and the users never change |
| MockAuth.Register | src/main/java/eu/robm15/tenxdevs/controller/MockAuthController.java:72-111 | 400 and no change iff the email is taken. Otherwise the user is added, followed by a session, or by a 500 for a null email |
| MockAuth.Logout | src/main/java/eu/robm15/tenxdevs/controller/MockAuthController.java:114-120 | removes only the session of the Bearer token, if any, and always answers 200 "Logged out successfully" |
| MockAuth.GetSessionAsWritten | src/main/java/eu/robm15/tenxdevs/controller/MockAuthController.java:123-140 | the session of a known token, and otherwise the 500 of the null map value |
| MockAuth.GetSessionAsWrittenCrashesWhenLoggedOut | src/main/java/eu/robm15/tenxdevs/controller/MockAuthController.java:139 | a request without a header, in the initial state, answers 500 |
| MockAuth.GetSession | src/main/java/eu/robm15/tenxdevs/controller/MockAuthController.java:123-140 | always 200, with the session of a known token, and `session: null` iff there is none |
| MockAuth.GetSessionAgreesWhereWrittenWorks | src/main/java/eu/robm15/tenxdevs/controller/MockAuthController.java:123-140 | the corrected lookup never fails and answers as written wherever the written code does not fail |
| MockAuth.GetUser | src/main/java/eu/robm15/tenxdevs/controller/MockAuthController.java:143-161 | 401 "Not authenticated" iff the token has no session. Otherwise 200 with the session user's id, email and role, and `authenticated: true` |
| MockAuth.LoginThenUser | src/main/java/eu/robm15/tenxdevs/controller/MockAuthController.java:143-161 | after a login, the user and session lookups with the returned token give the logged-in user with role "authenticated" |
| MockAuth.LoginKeepsOtherSessions | src/main/java/eu/robm15/tenxdevs/controller/MockAuthController.java:50 | a login keeps every other token's session |
| MockAuth.RegisterThenLogin | src/main/java/eu/robm15/tenxdevs/controller/MockAuthController.java:85 | after registering, logging in with the same email and password succeeds |
| MockAuth.LogoutThenUser | src/main/java/eu/robm15/tenxdevs/controller/MockAuthController.java:114-120 | after logging out with a token, the user lookup with it answers 401 and the session lookup reports no session |
| MockAuth.PreconfiguredUsersLogIn | src/main/java/eu/robm15/tenxdevs/controller/MockAuthController.java:25-30 | the three preconfigured accounts log in with their passwords, and the initial state has no session |
| Ownership.CreateNoteKeepsConsistent | src/main/java/eu/robm15/tenxdevs/service/NoteService.java:35-38 | creating a note keeps every plan pointing at a handed-out note id of its owner |
| Ownership.UpdateNoteKeepsConsistent | src/main/java/eu/robm15/tenxdevs/service/NoteService.java:72-84 | updating a note keeps the plan-note invariant, since the owner does not change |
| Ownership.DeleteNoteKeepsConsistent | src/main/java/eu/robm15/tenxdevs/service/NoteService.java:95-101 | deleting a note keeps the invariant, although its plans stay stored |
| Ownership.GenerateKeepsConsistent | src/main/java/eu/robm15/tenxdevs/service/TripPlanService.java:106-107 | a generated plan points at a note its owner owns |
| Ownership.RateKeepsConsistent | src/main/java/eu/robm15/tenxdevs/service/TripPlanService.java:205-225 | rating keeps the invariant |
| Ownership.DeletePlanKeepsConsistent | src/main/java/eu/robm15/tenxdevs/service/TripPlanService.java:231-247 | deleting a plan keeps the invariant |
| Ownership.PlansByNoteReturnsOnlyOwnPlans | src/main/java/eu/robm15/tenxdevs/controller/TripPlanController.java:179-186 | under the invariant, every plan listed for a note belongs to the caller |
| Ownership.PlansByNoteNeedsConsistency | src/main/java/eu/robm15/tenxdevs/controller/TripPlanController.java:185 | for a store violating the invariant, the listing hands another user's plan to the caller |

## Left out

- AIUsageLimitService is not part of this model. `canGeneratePlan`, `getDailyLimit` and `getRemainingUsage` are the uninterpreted fields of `UsageLimits`. Nothing records usage, because `generatePlan` records none.
- JWT signature and expiry checking is library cryptography. The token parser is an opaque function from token to claims or error.
- The OpenAI chat call is an opaque fallible function from prompt to text. The mock fallback text is a constant.
- The Base64 encoder and the name-based UUID of the mock tokens are the `Codec` parameters. Only the JSON payload they are applied to is modelled.
- `Text.ToUpper`: upper-cases ASCII letters only, whereas `String.toUpperCase` also maps other alphabets.
- HashSet iteration order is unspecified. The three set-valued categories are given as sequences in that order.
- Creation times are supplied by the caller as natural numbers instead of `LocalDateTime.now()`. `updatedAt` and the plans' `createdAt` are not modelled, since no decision reads them.
- A null `noteId` in the generate request is not modelled. The note id is an integer.
- Spring's own error bodies for an uncaught exception are modelled as a 500 with no body.
- Repository and database exceptions are not modelled. So the 500 branches of NoteController, and the "Failed to rate/delete trip plan" branches of TripPlanController, cannot happen in the model.
- PreferencesService.SaveAsWritten: a client-sent id that names no stored record is treated like a missing one, so the record is stored under a fresh id. Hibernate 6.6 and later reject such a merge instead, and the Hibernate version is not part of this model.
- The TravelPreferences and TripPlan setters are datatype updates. That each changes only its own field holds by construction.
- Concurrency, `@Transactional` and the static maps shared between requests are left out. Everything is sequential.
- Spring wiring, security configuration, the Supabase HTTP client, the view, diagnostics and configuration endpoints, and all browser JavaScript are left out.
- `PreferencesController` and its enum option lists are not part of this model. Only the preferences service is.

## Findings

| source | as written | input that shows it | evidently intended | confidence | as-written member | corrected member |
|---|---|---|---|---|---|---|
| src/main/java/eu/robm15/tenxdevs/controller/MockAuthController.java:139 | `getSession` without a live session answers with `Map.of("session", null)`. `Map.of` rejects null values with a NullPointerException, so the endpoint answers 500 | GET `/api/mock-auth/session` with no `Authorization` header, in the initial state | 200 with `{"session": null}`, the logged-out answer the client expects | high; not executed | MockAuth.GetSessionAsWritten, MockAuth.GetSessionAsWrittenCrashesWhenLoggedOut | MockAuth.GetSession, MockAuth.GetSessionAgreesWhereWrittenWorks |
| src/main/java/eu/robm15/tenxdevs/service/TravelPreferencesService.java:50-51 | with no stored record, the request body is saved as it came, including any `id` the client sent. The repository's `save` merges an entity that has an id, so the payload overwrites the record with that id and re-owns it | user "b" has no preferences and posts preferences whose `id` is user "a"'s record id | a new record is always stored under a fresh id, and no other user's preferences change | medium; not executed | PreferencesService.SaveAsWritten, PreferencesService.SaveAsWrittenTakesOverForeignRecord | PreferencesService.Save, PreferencesService.SaveIgnoresClientId |
