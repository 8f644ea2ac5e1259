# Skillix backend core, modelled in Dafny

Skillix builds personal multi-day learning plans with language-model calls. It serves them one day at a time and keeps progress, streaks and XP for each learner. A fox mascot, Ski (also called Tovi), sends messages, notifications and chat replies. This project models the deterministic rules around the model and database calls and proves what those rules promise:

- the per-user file store of preferences, profiles, enrollments and day records (`Storage`);
- the course document schema and the course-id sanitiser (`Course`, `CourseBuilder`);
- the Zod schemas for model output and the normalisation of a generated day (`LlmSchemas`, `ContentGenerator`);
- the Data Connect insert sequences of a plan and of a day (`DataConnect`);
- the bridge adapter with its enum lookups (`Adapter`);
- day generation and sequencing: `ContentOrchestrator`, `AdaptiveOrchestrator`, `CourseOrchestrator` and `DayApi`;
- the similar-course reuse, remix or generate decision (`VectorSearch`, `VectorService`, `Planner`, `ContentAgent`);
- progress and XP arithmetic (`UserStats`, `XpQueries`);
- the learning-plan controller (`LearningPlan`);
- notifications, Ski's messages and the chat message list (`Notifications`, `Tovi`, `SkiPersonality`, `Chat`);
- the analytics schemas and notification-time tables (`AnalyticsService`, `AnalyticsAgent`);
- the content-scale table (`ContentScale`);
- the Express error middleware (`ErrorHandler`).

Each core source file is one module in its own `.dfy` file. `Wrappers` holds `Option` and `Result`. `Text` holds the string helpers: ASCII case mapping, substring search, decimal rendering and joining and splitting.

Calls whose outcome the code cannot predict are inputs to the model. These are the language model, the embedding and index service, the database, the device-token lookup, push delivery, the clock, uuid generation and random choice. A model reply is given as "call failed", "not JSON" or the parsed object. A database insert either returns an id or does not, scripted in advance.

The file store, the insert log, the notification outbox and the step-by-step loops are imperative, as in the source. A class holds the state, and each method is proved against a specification function.

The code has no fingerprint index, no hashed identity key and no per-day version history of shared roadmaps. The model follows the code and does not invent them.

## Model

| member | source | states |
|---|---|---|
| Storage.NewEnrollmentDay | src/services/storage_service.py:32-39 | a new day record keeps its title, action flag and blocks; action task, score, feedback and completion time are all None |
| Storage.NewEnrollment | src/services/storage_service.py:109-119 | a new enrollment keeps the roadmap, starts with last generated day, streak and XP at 0 and no days, created and updated at the given time |
| Storage.StorageService.constructor | src/services/storage_service.py:63-71 | a new store holds no preferences, profiles, enrollments, days or enrollment directories |
| Storage.StorageService.SaveUserPreferences | src/services/storage_service.py:77-83 | the user's preferences are replaced, read back unchanged, and no other user's preferences and no other record change |
| Storage.StorageService.GetUserPreferences | src/services/storage_service.py:85-91 | the stored preferences when present, None exactly when no file was saved for the user |
| Storage.StorageService.SaveUserProfile | src/services/storage_service.py:93-99 | the user's profile is replaced, read back unchanged, and nothing else changes |
| Storage.StorageService.GetUserProfile | src/services/storage_service.py:101-107 | the stored profile when present, None exactly when absent |
| Storage.StorageService.CreateEnrollment | src/services/storage_service.py:109-124 | returns and stores a fresh enrollment (no progress, no days) under (uid, course), replacing any earlier one without a check, and creates the enrollment directory |
| Storage.StorageService.SaveDayContent | src/services/storage_service.py:126-133 | day (uid, course, n) is replaced and read back; every other day, the enrollment record (its days map included), preferences and profiles stay unchanged |
| Storage.StorageService.GetDayContent | src/services/storage_service.py:135-141 | the stored day, None exactly when the day was never saved |
| Storage.StorageService.GetEnrollment | src/services/storage_service.py:149-155 | the stored enrollment, None exactly when there is none |
| Storage.StorageService.UpdateEnrollment | src/services/storage_service.py:143-160 | a full replace that a later read returns exactly; it succeeds iff the enrollment directory already exists, since no directory is created, and otherwise nothing changes |
| Course.KindOfTag | src/schemas/course.py:73-83 | the union member selected by a `type` literal has exactly that literal |
| Course.KindTagDiscriminates | src/schemas/course.py:73-83 | each of the nine variants is recovered from its `type` literal |
| Course.KindTagInjective | src/schemas/course.py:73-83 | no two variants share a `type` literal |
| Course.LevelOfTag | src/schemas/course.py:95 | a level is accepted exactly for "beginner", "intermediate" or "advanced", each mapped to its own value |
| Course.DigitsAreNotLower | src/schemas/course.py:117-122 | "123", "" and "_" are not lower case in Python's sense, so such ids are rejected |
| Course.LimitBlocks | src/schemas/course.py:108-115 | blocks are accepted unchanged iff there are between 1 and the configured maximum |
| Course.ValidateCourseId | src/schemas/course.py:117-122 | an id is accepted unchanged iff `str.islower` holds for it |
| Course.ValidateVersion | src/schemas/course.py:124-129 | a version is accepted unchanged iff it starts with 'v' |
| Course.ValidateLanguage | src/schemas/course.py:131-136 | a language is accepted iff it has exactly two characters; the stored value is its lower-cased form |
| Course.StrField | src/schemas/course.py:88-96 | a string field is taken when present and a string, rejected when present with another type, and takes its default (or is rejected when it has none) when absent |
| Course.ValidateIdentity | src/schemas/course.py:88-90 | an accepted identity has a lower-case id, a version starting with 'v' (default "v1") and a two-letter lower-case language (default "es"), each taken from the input when given |
| Course.ValidateDescription | src/schemas/course.py:93-99 | title and description come from the input; level, tags and canonical come from the input or default to beginner, no tags and false |
| Course.CreateCourseDoc | src/schemas/course.py:85-136 | a document is built iff the identity and description fields validate, the blocks pass the length check and the timestamps given are strings; it carries exactly the validated fields and the blocks |
| Course.AcceptedDocIsValid | src/schemas/course.py:108-136 | every accepted document satisfies all four field validators |
| CourseBuilder.SanitizeIsSnakeId | src/tools/course_builder.py:8-15 | every sanitised id holds only [a-z0-9_], with no leading, trailing or doubled '_' |
| CourseBuilder.CollapseShape | src/tools/course_builder.py:15 | replacing whitespace runs by '_' leaves no two consecutive '_' and keeps a non-space first and last character |
| CourseBuilder.StripFacts | src/tools/course_builder.py:15 | after `strip()` the text neither starts nor ends with whitespace |
| CourseBuilder.KeepAllowedKept | src/tools/course_builder.py:13 | the first substitution keeps only [a-z0-9] and whitespace |
| CourseBuilder.SanitizeKeepsExactlyAlnum | src/tools/course_builder.py:13-15 | the letters and digits of the sanitised id are exactly those of the lower-cased input, in order |
| CourseBuilder.ResanitizeDropsUnderscores | src/tools/course_builder.py:29-30 | sanitising an id a second time deletes its underscores |
| CourseBuilder.SanitizeOfSnake | src/tools/course_builder.py:29-30 | a snake_case id given by the caller is stored as its letters and digits only |
| CourseBuilder.CallerIdExample | src/tools/course_builder.py:29-30 | a caller-supplied "my_course" is stored as "mycourse" |
| CourseBuilder.Metadata.constructor | src/tools/course_builder.py:19 | the caller's metadata dictionary holds the given entries |
| CourseBuilder.TruncateTags | src/tools/course_builder.py:48-49 | `[:10]` keeps the first ten items of a list or characters of a string and fails on any other value |
| CourseBuilder.ChosenCourseId | src/tools/course_builder.py:25-30 | a non-empty caller id is sanitised; otherwise the id is the sanitised title (or "") followed by '_' and the uuid's first 8 hex digits; a non-string title fails |
| CourseBuilder.TruncatedMetadata | src/tools/course_builder.py:47-49 | only the "tags" entry is rewritten, and only when present; a value that cannot be sliced fails |
| CourseBuilder.BuildCourseDoc | src/tools/course_builder.py:17-55 | the returned document or error and the caller's metadata after the call are those of the specification of the build: id choice, in-place tag truncation, defaults overridden by metadata, blocks from the argument, document validation |
| CourseBuilder.BuiltTagsAtMostTen | src/tools/course_builder.py:48-52 | a built document has at most ten tags, a prefix of the caller's list, and the caller's metadata now holds that same list |
| CourseBuilder.BuiltMetadataOverridesDefaults | src/tools/course_builder.py:36-52 | metadata keys override the defaults (v1, beginner, not canonical, no tags, the chosen id) and the blocks are always the argument |
| CourseBuilder.GeneratedIdShape | src/tools/course_builder.py:26-28 | without a caller id or metadata override, the id is the sanitised title, '_' and 8 hex digits |
| CourseBuilder.DefaultsFacts | src/tools/course_builder.py:36-45 | the default map holds the chosen id, "v1", "beginner", no tags and canonical false |
| CourseBuilder.GeneratedIdWithoutLettersRejected | src/tools/course_builder.py:26-28 | a title without letters and an all-digit uuid prefix give an id with no cased character, which the document validator rejects |
| CourseBuilder.IdWithoutLettersNotLower | src/tools/course_builder.py:26-28 | such an id fails `str.islower` |
| LlmSchemas.TwoDigits | src/services/llm/schemas.ts:17 | a number below 100 written with two digits |
| LlmSchemas.FormatTimeIsTimeString | src/services/llm/schemas.ts:17 | every clock time (hour < 24, minute < 60) written as HH:MM matches the time pattern and reads back as the same hour and minute |
| LlmSchemas.TimeStringIsFormatted | src/services/llm/schemas.ts:17 | every string the pattern accepts has hour 00-23 and minute 00-59 and is the HH:MM form of that time |
| LlmSchemas.ParseMainContent | src/services/llm/schemas.ts:85-97 | main content is accepted iff title, fun fact and at least one valid key concept are present, the text has 10 or more characters and a given xp is positive; the accepted value carries the input's title, text, fun fact and key concepts, with xp 30 by default |
| LlmSchemas.ExerciseKindOfTag | src/services/llm/schemas.ts:139-144 | the four `type` literals select the four exercise variants, each exactly by its own literal |
| LlmSchemas.ParseExercise | src/services/llm/schemas.ts:101-144 | an unknown `type` is rejected; otherwise the variant's own checks decide; an accepted exercise has that `type`, carries the input's question, options, answer, explanation, statement, pairs or scenario as its variant has them, and its xp is the given one or the variant's default |
| LlmSchemas.ExerciseDefaultXp | src/services/llm/schemas.ts:107-136 | with xp omitted, MCQ, true/false, match-meaning and scenario exercises are worth 20, 15, 25 and 30 |
| LlmSchemas.ParsedChoiceExercisesHaveOptions | src/services/llm/schemas.ts:104-105 | an accepted MCQ or scenario exercise has at least two options and a non-negative answer |
| LlmSchemas.McqAnswerNotCheckedAgainstOptions | src/services/llm/schemas.ts:104-105 | an MCQ whose answer 5 points past its two options is still accepted |
| LlmSchemas.ParseExercises | src/services/llm/schemas.ts:164 | a list of exercises is accepted iff every item is, and then holds each parsed item in order |
| LlmSchemas.AdaptationOfTag | src/services/llm/schemas.ts:155 | the difficulty adaptation accepts exactly easier, standard and harder, each as itself |
| LlmSchemas.ParseActionTask | src/services/llm/schemas.ts:146-157 | an action task is accepted iff all fields check; the accepted task carries the input's title, description, steps, time estimate, tips, context, success criteria and motivation; its xp is in [30, 150] and defaults to 75; a null or omitted difficulty adaptation stays so and a present one is the tag's adaptation |
| LlmSchemas.ParseNullableExercises | src/services/llm/schemas.ts:164-167 | an omitted or null exercise list is accepted and stays omitted or null; a present one is accepted iff its items are |
| LlmSchemas.ParseNullableActionTask | src/services/llm/schemas.ts:168 | an omitted or null action task is accepted and stays so; a present one is accepted iff it validates, and is then the parsed task |
| LlmSchemas.ParseMainField | src/services/llm/schemas.ts:163 | main content is required but nullable: omitted is rejected, null stays null, and a present one is accepted iff it validates and is then the parsed content |
| LlmSchemas.ParseDayFields | src/services/llm/schemas.ts:159-170 | the day's fields are accepted iff title and objectives are non-empty, the action flag is given, main content is given (null allowed) and validates, exercises and action task validate, a given total xp is non-negative and a given estimated time is non-empty; the accepted day keeps the title, flag and objectives, holds the parsed main content, exercises and task, and defaults total xp to 0 and estimated time to "TBD" |
| LlmSchemas.ParseDayContent | src/services/llm/schemas.ts:159-179 | a day is accepted iff its fields check and it is structurally consistent: an action day has null main content, a content day has main content and an action task that is exactly null |
| LlmSchemas.OmittedActionTaskRejected | src/services/llm/schemas.ts:171-176 | a content day whose action task is omitted (undefined, not null) fails the refinement |
| LlmSchemas.ActionDayWithMainContentRejected | src/services/llm/schemas.ts:171-173 | an action day with main content fails the refinement |
| LlmSchemas.PlannerStatusOfTag | src/services/llm/schemas.ts:235 | the planner schema's status accepts only PENDING, IN_PROGRESS, COMPLETED and SKIPPED, each as itself |
| LlmSchemas.ParseLearningDay | src/services/llm/schemas.ts:227-236 | a learning day is accepted iff its day number and order are positive, its text fields and objectives are non-empty, a given `generatedAt` passes the date-time check and a given status is one of the four; the accepted day keeps the input's fields and a missing status becomes PENDING |
| ContentGenerator.ForceStructure | src/services/llm/contentGenerator.service.ts:164-177 | an action day loses main content and action task and keeps its exercises or null; a content day loses its action task, fails without main content, and gets [] for missing exercises |
| ContentGenerator.Override | src/services/llm/contentGenerator.service.ts:181-188 | after the overrides an action day has no main content and a content day has a null action task |
| ContentGenerator.OverrideKeepsConsistentContent | src/services/llm/contentGenerator.service.ts:179-188 | the overrides never change a day that passed the schema refinement |
| ContentGenerator.GenerateDailyContentStructure | src/services/llm/contentGenerator.service.ts:141-203 | null on a failed call, unparsable text, missing content-day main content or a schema failure; otherwise the validated forced day, which is structurally consistent, with null main content and action task on an action day and an exercise list on a content day |
| ContentGenerator.ContentDayWithoutExercisesAccepted | src/services/llm/contentGenerator.service.ts:176-191 | a valid content day without exercises is returned with an empty list |
| ContentGenerator.ContentDayNeedsMainContent | src/services/llm/contentGenerator.service.ts:169-175 | a content day without main content never reaches validation |
| ContentGenerator.GenerateActionDayTask | src/services/llm/contentGenerator.service.ts:205-244 | null on a failed call or unparsable text; otherwise the action task iff it validates |
| ContentGenerator.ActionTaskIgnoresFlag | src/services/llm/contentGenerator.service.ts:208-210 | the result is the same whether or not the day is marked as an action day |
| DataConnect.Step | src/services/dataConnect.complex.ts:43-46 | one create mutation is logged; it yields an id exactly when the database returns one, and that id names the logged row |
| DataConnect.InsertAllFacts | src/services/dataConnect.complex.ts:73-79 | a loop of awaited inserts whose results are ignored logs exactly those rows, in order, after the earlier log |
| DataConnect.KeyConceptRows | src/services/dataConnect.complex.ts:178-185 | one key-concept row per concept, none of which affects the success flag |
| DataConnect.MatchPairRows | src/services/dataConnect.complex.ts:244-251 | one match-pair row per pair, none of which affects the success flag |
| DataConnect.QuizDescription | src/services/dataConnect.complex.ts:227-232 | the quiz description is never empty: the question, else the statement, else "Quiz" |
| DataConnect.BlockTitle | src/services/dataConnect.complex.ts:259-263 | the block title is the question, else the statement, else "Ejercicio Interactivo" (always so for match-meaning) |
| DataConnect.MainContentOk | src/services/dataConnect.complex.ts:162-190 | step 1 reports success exactly when its main content insert returned an id |
| DataConnect.DetailsNonCritical | src/services/dataConnect.complex.ts:225-253 | the detail, concept and pair inserts of an exercise never affect the success flag |
| DataConnect.ExerciseOk | src/services/dataConnect.complex.ts:219-275 | one exercise reports success exactly when its content block got an id |
| DataConnect.ExercisesOk | src/services/dataConnect.complex.ts:217-275 | the exercise loop reports success exactly when every content block it inserted got an id |
| DataConnect.SaveDailyOkIffCriticalInsertsSucceeded | src/services/dataConnect.complex.ts:158-282 | the result is true exactly when the main content, action task and every content block attempted got an id; failed detail inserts do not matter |
| DataConnect.ExerciseBlockShape | src/services/dataConnect.complex.ts:255-271 | exercise i ends with its content block: order i + 1, the upper-cased type, the fallback title, the exercise's xp and the day's id |
| DataConnect.BlockTypeLiterals | src/services/dataConnect.complex.ts:221 | the four block types are QUIZ_MCQ, QUIZ_TRUEFALSE, MATCH_MEANING and SCENARIO_QUIZ |
| DataConnect.QuizPrefix | src/services/dataConnect.complex.ts:226-236 | exactly the two quiz variants start with QUIZ (SCENARIO_QUIZ does not), and only match-meaning is MATCH_MEANING |
| DataConnect.DetailsByType | src/services/dataConnect.complex.ts:226-253 | QUIZ_* exercises get one quiz-details row; MATCH_MEANING gets exercise details plus one pair per term when they got an id; SCENARIO_QUIZ gets neither |
| DataConnect.ComponentRows | src/services/dataConnect.complex.ts:73-79 | one component row per skill component |
| DataConnect.ObjectiveRows | src/services/dataConnect.complex.ts:99-108 | one objective row per learning objective |
| DataConnect.DayRows | src/services/dataConnect.complex.ts:127-140 | one day row per planned day |
| DataConnect.PlanBaseFailureStops | src/services/dataConnect.complex.ts:43-51 | without a plan id the result is null and the base insert is the only one attempted; otherwise the result carries the plan id and skill name |
| DataConnect.SkillAnalysisInserts | src/services/dataConnect.complex.ts:55-81 | the analysis row (plan id added, generatedBy LLM_SERVICE) goes first; one component row carrying its id follows per component exactly when it got an id |
| DataConnect.PedagogicalInserts | src/services/dataConnect.complex.ts:84-111 | no pedagogical analysis inserts nothing; otherwise its row (generatedBy LLM_SERVICE) is followed by its objectives only when it got an id |
| DataConnect.SectionInserts | src/services/dataConnect.complex.ts:114-142 | a section's days (without their order) are inserted, carrying the section's id, exactly when the section got one |
| DataConnect.SectionsGrow | src/services/dataConnect.complex.ts:114-142 | the section loop only appends to the log |
| DataConnect.Db.constructor | src/services/dataConnect.complex.ts:43 | a database with an empty log and the given insert outcomes |
| DataConnect.Db.Insert | src/services/dataConnect.complex.ts:43-44 | one awaited create mutation, as the insert step specifies it |
| DataConnect.Db.InsertEach | src/services/dataConnect.complex.ts:73-79 | a loop of awaited inserts, as the specification of inserting all rows states it |
| DataConnect.Db.SaveMainContent | src/services/dataConnect.complex.ts:162-190 | step 1 of saving a day, as its specification states it |
| DataConnect.Db.SaveActionTask | src/services/dataConnect.complex.ts:192-215 | step 2 of saving a day: the action task item, failing the flag when it got no id |
| DataConnect.Db.SaveExercise | src/services/dataConnect.complex.ts:219-275 | one turn of the exercise loop, as its specification states it |
| DataConnect.Db.SaveDailyContentDetails | src/services/dataConnect.complex.ts:158-282 | the final log and success flag of `saveDailyContentDetailsInDB`, as its specification states them |
| DataConnect.Db.CreateFullLearningPlan | src/services/dataConnect.complex.ts:21-153 | the final log and result of `createFullLearningPlanInDB`, as its specification states them |
| Adapter.OrText | dataconnect-bridge/services/dataconnect-adapter.js:126-129 | the truthiness default on a string: a missing or empty value gives the default, any other value is kept |
| Adapter.OrInt | dataconnect-bridge/services/dataconnect-adapter.js:122 | the truthiness default on a number: a missing or zero value gives the default, any other value is kept |
| Adapter.CeilMinutes | dataconnect-bridge/services/dataconnect-adapter.js:124 | `Math.ceil(s / 60)`: the least whole number of minutes covering the seconds |
| Adapter.OptionsOf | dataconnect-bridge/services/dataconnect-adapter.js:172-176 | one option per input option, in order, with its index, marked correct iff it equals the correct answer |
| Adapter.AudioPart | dataconnect-bridge/services/dataconnect-adapter.js:117-133 | one block per audio input |
| Adapter.ReadPart | dataconnect-bridge/services/dataconnect-adapter.js:136-155 | one block per read input |
| Adapter.QuizPart | dataconnect-bridge/services/dataconnect-adapter.js:158-181 | one block per quiz input |
| Adapter.ActionPart | dataconnect-bridge/services/dataconnect-adapter.js:184-209 | one block per action task input |
| Adapter.PushAudio | dataconnect-bridge/services/dataconnect-adapter.js:117-133 | the audio loop emits the audio group with `order` equal to the input index |
| Adapter.PushReads | dataconnect-bridge/services/dataconnect-adapter.js:136-155 | the read loop appends the read group with `order` equal to the running length |
| Adapter.PushQuizzes | dataconnect-bridge/services/dataconnect-adapter.js:158-181 | the quiz loop appends the quiz group with `order` equal to the running length |
| Adapter.PushActions | dataconnect-bridge/services/dataconnect-adapter.js:184-209 | the action loop appends the action group with `order` equal to the running length |
| Adapter.TransformDayContent | dataconnect-bridge/services/dataconnect-adapter.js:112-214 | the emitted blocks are the four groups in order audio, read, quiz, action; missing objectives become [] |
| Adapter.DayBlocksOrdered | dataconnect-bridge/services/dataconnect-adapter.js:116-209 | one block per input, each block's `order` is its index, and the groups come audio, read, quiz, action |
| Adapter.DayBlocksKeepInputOrder | dataconnect-bridge/services/dataconnect-adapter.js:116-209 | within each group the k-th block comes from the k-th input |
| Adapter.AudioMinutes | dataconnect-bridge/services/dataconnect-adapter.js:124 | an audio block lasts ceil(duration / 60) minutes, 3 when the duration is missing or 0 |
| Adapter.DefaultBlockXp | dataconnect-bridge/services/dataconnect-adapter.js:122-189 | default xp is 10 for audio, 15 for read, 20 for quiz and 50 for an action task |
| Adapter.CorrectOptionsAreTheAnswer | dataconnect-bridge/services/dataconnect-adapter.js:172-176 | an option is correct iff it equals the correct answer; none is when the answer is not among the options |
| Adapter.JsLookup | dataconnect-bridge/services/dataconnect-adapter.js:233 | an object-literal lookup finds the own entry when there is one and an inherited Object.prototype member for a prototype key |
| Adapter.MapSkillCategoryAsWritten | dataconnect-bridge/services/dataconnect-adapter.js:233 | the lookup as written: a category that lower-cases to an Object.prototype member returns that inherited member instead of a category; anything else gives an own entry or OTHER |
| Adapter.SkillCategoryPrototypeLeak | dataconnect-bridge/services/dataconnect-adapter.js:233 | "Constructor" lower-cases to a prototype member and returns it instead of OTHER |
| Adapter.MapSkillCategory | dataconnect-bridge/services/dataconnect-adapter.js:224-233 | each of the five keys, in any case, maps to its category (personal to PERSONAL_DEVELOPMENT); every other key and a missing category give OTHER |
| Adapter.SkillCategoryAgreesOffPrototype | dataconnect-bridge/services/dataconnect-adapter.js:225-234 | off the prototype keys, the code and the intended lookup agree |
| Adapter.SkillCategoryCaseInsensitive | dataconnect-bridge/services/dataconnect-adapter.js:233 | any spelling of a key maps like its lower-case form |
| Adapter.MapMarketDemand | dataconnect-bridge/services/dataconnect-adapter.js:239-249 | high/alta give HIGH, medium/media give MEDIUM, low/baja give LOW, in any case; every other key and a missing demand give MEDIUM |
| Adapter.MapMarketDemandAsWritten | dataconnect-bridge/services/dataconnect-adapter.js:248 | the lookup as written: a demand that lower-cases to an Object.prototype member returns that inherited member instead of a level |
| Adapter.MarketDemandAgreesOffPrototype | dataconnect-bridge/services/dataconnect-adapter.js:239-249 | off the prototype keys, the code and the intended lookup agree |
| Adapter.MapChurnRisk | dataconnect-bridge/services/dataconnect-adapter.js:254-264 | low/bajo give LOW, medium/medio give MEDIUM, high/alto give HIGH, in any case; every other key and a missing risk give MEDIUM |
| Adapter.MapChurnRiskAsWritten | dataconnect-bridge/services/dataconnect-adapter.js:263 | the lookup as written: a risk that lower-cases to an Object.prototype member returns that inherited member instead of a level |
| Adapter.ChurnRiskAgreesOffPrototype | dataconnect-bridge/services/dataconnect-adapter.js:254-264 | off the prototype keys, the code and the intended lookup agree |
| Adapter.NonZero | dataconnect-bridge/services/dataconnect-adapter.js:275 | the truthiness default to null on a number: zero and missing become null |
| Adapter.TransformAnalytics | dataconnect-bridge/services/dataconnect-adapter.js:269-282 | XP, sessions, session time, blocks and both streaks are the given values or 0; a present non-zero quiz average or engagement score and a non-empty preferred time pass through, while zero, empty or missing ones become null; the churn risk is mapped |
| Adapter.ComponentOf | dataconnect-bridge/services/dataconnect-adapter.js:31-36 | a component keeps its index as order; a plain item has description '' and importance 3, and a record without a non-zero importance gets 3 |
| Adapter.PrerequisiteOf | dataconnect-bridge/services/dataconnect-adapter.js:39-44 | a prerequisite is optional only when its record says `required: false` |
| Adapter.CareerPathOf | dataconnect-bridge/services/dataconnect-adapter.js:47-53 | a career path keeps its index as order, and carries a salary only when its record gives a non-zero one |
| Adapter.ObjectiveOf | dataconnect-bridge/services/dataconnect-adapter.js:61-66 | an objective is not measurable only when its record says `measurable: false`; a plain objective has timeframe "30 days" |
| Adapter.PlanDayOf | dataconnect-bridge/services/dataconnect-adapter.js:93-99 | a plan day keeps its number and title, a non-empty focus area, its objectives when given, and is an action day iff the flag is true; focus area and objectives default to "" and [] |
| Adapter.TechniqueOf | dataconnect-bridge/services/dataconnect-adapter.js:75-79 | an engagement technique keeps a non-empty frequency and otherwise gets "Daily"; a plain item is its own name with an empty description |
| Adapter.AssessmentOf | dataconnect-bridge/services/dataconnect-adapter.js:82-86 | an assessment method keeps a non-empty frequency and otherwise gets "Per Section"; a plain item is its own type with an empty description |
| Adapter.TransformLearningPlan | dataconnect-bridge/services/dataconnect-adapter.js:12-101 | every list keeps its length and item i of components, prerequisites, career paths and objectives is that item's transform with order i; section i keeps its title, a non-empty description (null otherwise) and holds day k's transform for each of its days; techniques and methods are transformed item by item; generatedBy is "openai-gpt4", category and demand are mapped, and the cognitive-load assessment is the given non-empty text or "Balanced" |
| Adapter.PrerequisitesRequiredUnlessFalse | dataconnect-bridge/services/dataconnect-adapter.js:42 | every prerequisite is required unless its record says `required: false` |
| Adapter.CareerPathDefaultDemand | dataconnect-bridge/services/dataconnect-adapter.js:51 | a career path with no demand gets MEDIUM |
| ContentOrchestrator.FindDay | src/services/contentOrchestrator.service.ts:53 | the day found carries the number and comes from the plan; none is found exactly when no day carries it |
| ContentOrchestrator.FindDayIsFirst | src/services/contentOrchestrator.service.ts:53 | the day found is the first one carrying the number |
| ContentOrchestrator.AllDaysCount | src/services/contentOrchestrator.service.ts:46 | the plan's day count is the sum of its sections' day counts |
| ContentOrchestrator.Validate | src/services/contentOrchestrator.service.ts:37-56 | missing plan gives 404, then a foreign owner 403, then a missing user 404; a day number past the total is a success with nothing to do; otherwise a day number no day carries is 404 naming the number, and a found day goes on as the first day with that number |
| ContentOrchestrator.WithActionTask | src/services/contentOrchestrator.service.ts:88-96 | on an action day the generated task (or null) replaces the action task and nothing else; a content day is unchanged |
| ContentOrchestrator.DayStatuses.constructor | src/services/contentOrchestrator.service.ts:107 | the day-status table starts as given |
| ContentOrchestrator.DayStatuses.Update | src/services/contentOrchestrator.service.ts:107 | one day's status is set and no other changes |
| ContentOrchestrator.ToSave | src/services/contentOrchestrator.service.ts:81-96 | there is content to save exactly when generation succeeded; a content day is saved as generated; an action day is saved as generated except that its action task is the freshly generated task, or null when that generation failed |
| ContentOrchestrator.GenerateAndSave | src/services/contentOrchestrator.service.ts:79-114 | a failed generation is a 500 with nothing written; otherwise the day is saved as the composite save specifies; a failed save is a 500 that leaves the status alone; success marks the day IN_PROGRESS and returns the content |
| ContentOrchestrator.GenerateAndSaveContentForDay | src/services/contentOrchestrator.service.ts:24-114 | refusals and plan completion write nothing and return their code or success; otherwise the generate-and-save outcome, with the status updated only on success |
| AdaptiveOrchestrator.Adaptations | agents/src/skillix_agents/orchestrator.py:394-412 | reduced complexity iff average time > 60, increased depth iff < 15, extra explanations iff quiz score < 0.6, advanced challenges iff > 0.9; at most two items, the time item first; empty progress gives [increased depth, extra explanations] |
| AdaptiveOrchestrator.CalculateAdaptations | agents/src/skillix_agents/orchestrator.py:394-412 | the appending code computes exactly those adjustments |
| AdaptiveOrchestrator.FirstInSection | agents/src/skillix_agents/orchestrator.py:537-539 | the day found in a section carries the number and lies in the section; none exactly when no day of the section carries it |
| AdaptiveOrchestrator.FindDayInfo | agents/src/skillix_agents/orchestrator.py:534-540 | the day found carries the number and lies in some section; none exactly when no day of any section carries it |
| AdaptiveOrchestrator.FirstInSectionIsFirst | agents/src/skillix_agents/orchestrator.py:537-539 | the day found in a section sits at a position before which no day carries the number |
| AdaptiveOrchestrator.FindDayInfoIsFirst | agents/src/skillix_agents/orchestrator.py:534-540 | the day found sits at some section and position such that no day of an earlier section, and no earlier day of its section, carries the number |
| AdaptiveOrchestrator.GetDayInfo | agents/src/skillix_agents/orchestrator.py:534-540 | the nested loop returns what the search function finds, and a returned day is the first match in section-then-day order |
| AdaptiveOrchestrator.AdaptiveEvents | agents/src/skillix_agents/orchestrator.py:261-392 | the state deltas yielded; without a session the only one is the no_session_found error |
| AdaptiveOrchestrator.AdaptiveKey | agents/src/skillix_agents/orchestrator.py:668-679 | an `error` key sets the status to "error" and records the value |
| AdaptiveOrchestrator.AdaptiveFinish | agents/src/skillix_agents/orchestrator.py:681-682 | the status becomes "completed" exactly when it was, or when it is still in progress with truthy day content; nothing else changes |
| AdaptiveOrchestrator.FoldAdaptiveDelta | agents/src/skillix_agents/orchestrator.py:668-679 | the inner loop folds one delta key by key |
| AdaptiveOrchestrator.GenerateAdaptiveContentTool | agents/src/skillix_agents/orchestrator.py:652-684 | the wrapper folds every event's delta and then applies the closing rule |
| AdaptiveOrchestrator.DayContentKeyShape | agents/src/skillix_agents/orchestrator.py:376 | every day content key starts with `day_`, ends with `_content` and differs from `last_generated_day` |
| AdaptiveOrchestrator.IgnoredKeys | agents/src/skillix_agents/orchestrator.py:668-679 | the progress, timestamp and generation-time keys leave the results unchanged |
| AdaptiveOrchestrator.ProgressIgnored | agents/src/skillix_agents/orchestrator.py:298-310 | the progress record event changes nothing in the results |
| AdaptiveOrchestrator.NewDayDelta | agents/src/skillix_agents/orchestrator.py:367-381 | the new-day event sets the day number, its content and the adjustments and leaves the status in progress |
| AdaptiveOrchestrator.GeneratedOutcome | agents/src/skillix_agents/orchestrator.py:312-392 | once a next day is found, the tool reports the generation error, or the day number, content and adjustments, completed exactly when the content is truthy |
| AdaptiveOrchestrator.AdaptiveToolOutcome | agents/src/skillix_agents/orchestrator.py:268-324 | no session gives the no_session_found error, missing plan or user data the missing_session_data error, and no next day the plan_completed status with no content |
| AdaptiveOrchestrator.AnalyzeKey | agents/src/skillix_agents/orchestrator.py:641-648 | a first `error` sets the status to "error"; a later one, already a key, only overwrites the message; other keys leave status and error alone |
| AdaptiveOrchestrator.FoldAnalyzeDelta | agents/src/skillix_agents/orchestrator.py:641-648 | the inner loop folds one delta key by key |
| AdaptiveOrchestrator.AnalyzeAndPlanCourseTool | agents/src/skillix_agents/orchestrator.py:624-650 | the wrapper folds every event's delta into the results |
| AdaptiveOrchestrator.AnalyzeDeltaKeepsStatus | agents/src/skillix_agents/orchestrator.py:641-648 | a delta without `status` or `error` keys never touches the status or the recorded error |
| AdaptiveOrchestrator.AnalyzeErrorSticks | agents/src/skillix_agents/orchestrator.py:646-648 | after an error, ordinary keys leave the status "error" |
| AdaptiveOrchestrator.ErrorRecorded | agents/src/skillix_agents/orchestrator.py:646-648 | once an error key is folded the results always hold an error |
| AdaptiveOrchestrator.BeforeToolCallback | agents/src/skillix_agents/orchestrator.py:599-621 | only analyze_and_plan_course is checked; it is refused, with the fixed message, exactly when the lower-cased skill contains a blocked phrase |
| AdaptiveOrchestrator.LowerConcat | agents/src/skillix_agents/orchestrator.py:614 | lower-casing distributes over concatenation |
| AdaptiveOrchestrator.BlockedSkillInAnyCase | agents/src/skillix_agents/orchestrator.py:612-614 | a skill naming "Hacking Malicioso" in any surrounding text is refused |
| AdaptiveOrchestrator.BeforeModelCallback | agents/src/skillix_agents/orchestrator.py:543-597 | as intended, skipping parts without text: the call is refused with the fixed reply iff some part's text mentions a blocked term in any case, never raises, and otherwise goes ahead with the system instruction prefixed by "[Validado por Callback] " when it is non-empty |
| AdaptiveOrchestrator.ScanPart | agents/src/skillix_agents/orchestrator.py:566-568 | the scan of one part's text over the three terms reports a hit iff the lower-cased text contains one of them |
| AdaptiveOrchestrator.BeforeModelCallbackAsWritten | agents/src/skillix_agents/orchestrator.py:543-597 | as written: a refusal only when some text mentions a blocked term, an AttributeError only when some part has no text, and going ahead iff every part has text and none is blocked; a textless part with no blocked text always raises |
| AdaptiveOrchestrator.ToolTurnRaisesAsWritten | agents/src/skillix_agents/orchestrator.py:565-566 | a request whose second message is a function-call part has a textless part and no blocked text, so the callback as written raises |
| AdaptiveOrchestrator.BlockedTermInAnyCase | agents/src/skillix_agents/orchestrator.py:551-568 | a part containing "Harmful" is blocked |
| CourseOrchestrator.SearchNextDay | agents/skillix_agents/orchestrator.py:110-118 | the search loop with its two `break`s finds what the search function finds, and a found day is the first numbered `target` in section-then-day order |
| CourseOrchestrator.GenerateNextDayContent | agents/skillix_agents/orchestrator.py:100-159 | a roadmap without sections fails with the KeyError text; no next day fails with the fixed message; a content agent error is reported with its text; success exactly when a next day exists and content came back, and then carries day current + 1 and that content |
| CourseOrchestrator.CreatePersonalizedCourse | agents/skillix_agents/orchestrator.py:25-98 | success exactly when the planner returned a plan whose first section has a day and the content agent returned, and then the result carries that learning plan and the first-day content and no error; a planner error, the "list index out of range" of a plan without sections or days, and a content-agent error are each reported with their text, with no plan and no content |
| CourseOrchestrator.FirstDayIsDayOne | agents/skillix_agents/orchestrator.py:53-54 | when the plan numbers its first day 1, the day the content agent is asked for is the day the next-day search finds for 1 |
| Planner.Decide | src/agents/planner.py:71-102 | reuse exactly for a canonical match scoring above 0.95; remix exactly for any other match scoring above 0.85; generate otherwise |
| Planner.ReuseSteps | src/agents/planner.py:77-84 | one step per stored block, with the block's type, its text (or "") as prompt and its text (or None) as content |
| Planner.RemixSteps | src/agents/planner.py:92-100 | one step per stored block, with the block's type and content and a prompt asking to remix the canonical or existing non-canonical text |
| Planner.PlanFor | src/agents/planner.py:71-107 | the reused plan with the reuse reasoning, the remixed plan with the remix reasoning, or the planner agent's own plan, as decided; reuse and remix keep the block count |
| Planner.GenerateCoursePlan | src/agents/planner.py:61-107 | with no endpoint or no neighbour the agent's plan is used; otherwise, with s = 1 - distance of the first neighbour, a canonical course with s > 0.95 is reused verbatim, any other course with s > 0.85 is remixed from its blocks, and s <= 0.85 gives the agent's plan |
| Planner.ExactLookupThresholdGenerates | src/agents/planner.py:66-90 | a score of exactly 0.85 passes the lookup but fails both strict comparisons, so the agent plans afresh |
| Planner.NonCanonicalNeverReused | src/agents/planner.py:76-102 | a non-canonical course is remixed however similar it is |
| Planner.PlanFollowsBlocks | src/agents/planner.py:77-100 | reuse and remix keep the matched course's block count and order of types |
| VectorSearch.FindSimilarCourses | src/tools/vector_search.py:20-77 | no endpoint or no neighbours gives None; a match exists exactly when the first neighbour's similarity (1 - distance) reaches the threshold, and then carries that score, the course data, its canonical flag (default false) and its blocks (default []) |
| VectorSearch.ThresholdMonotone | src/tools/vector_search.py:60-61 | raising the threshold can only remove a match and never changes one that survives |
| VectorSearch.FirstNeighbourOnly | src/tools/vector_search.py:57 | neighbours after the first and lists after the first never affect the result |
| VectorService.AddCourseToIndex | src/services/vector_service.py:32-60 | true exactly when an endpoint is configured and no external call raised |
| VectorService.UpdateCourseInIndex | src/services/vector_service.py:62-64 | the update succeeds exactly when an endpoint is configured and no external call raises, as the add it delegates to does |
| VectorService.RemoveCourseFromIndex | src/services/vector_service.py:66-82 | true exactly when an endpoint is configured and the removal did not raise |
| VectorService.FindSimilarCourses | src/services/vector_service.py:84-141 | the same filter as the search tool, with threshold 0.85 when none is given |
| VectorService.NoEndpointNoEffect | src/services/vector_service.py:35-37 | without an endpoint every index operation reports failure and no search finds anything |
| ContentAgent.RouteOf | src/agents/content.py:52-56 | preserve exactly when the reasoning names an existing course ("curso" and "canónico" or "existente") and says "sin modificaciones"; remix when it names one without that; fresh otherwise |
| ContentAgent.ConvertStep | src/agents/content.py:58-73 | a read step becomes a 10-xp read block without title carrying the content; an audio step a 10-xp audio block with an empty URL |
| ContentAgent.Preserved | src/agents/content.py:57-75 | with the intended block construction, a successful preserve pass has one block per step with content |
| ContentAgent.PreserveBlocks | src/agents/content.py:57-75 | the preserve loop, skipping steps without content and stopping at the first failed conversion, as the preserve function states it |
| ContentAgent.PreservedErrSticks | src/agents/content.py:57-75 | once a prefix of the steps fails, the whole pass fails with the same error |
| ContentAgent.PreservedBlocksShape | src/agents/content.py:60-68 | a plan of read and audio steps always converts, each block worth 10 xp, reads without title and audios with an empty URL |
| ContentAgent.GenerateCourseContent | src/agents/content.py:48-110 | on the preserve route the result is the preserved blocks with the fixed reasoning, failing exactly when the pass fails; the other routes return the content agent's output |
| ContentAgent.PreservedAsWritten | src/agents/content.py:57-75 | as written, the first step with content raises TypeError, so only a plan without content comes through, with no blocks |
| ContentAgent.PreserveAsWrittenFails | src/agents/content.py:75 | a single read step is refused as written and preserved as one read block as intended |
| ContentAgent.ReuseReasoningPreserves | src/agents/planner.py:86 | the planner's reuse reasoning takes the preserve route |
| ContentAgent.RemixReasoningNamesCourse | src/agents/planner.py:101 | the planner's remix reasoning names an existing course |
| ContentAgent.RemixReasoningLacksMarker | src/agents/planner.py:101 | the planner's remix reasoning does not contain "sin modificaciones" |
| ContentAgent.RemixReasoningRemixes | src/agents/planner.py:101 | the planner's remix reasoning, canonical or not, takes the remix route |
| DayApi.SectionDays | src/api/day.py:86 | the day count is defined exactly when every section has `days`; a missing key fails with the text `'days'`; no sections count 0 |
| DayApi.TotalDays | src/api/day.py:86 | a roadmap without `sections` fails with `'sections'`; otherwise the count is the sections' day count |
| DayApi.SectionDaysAppend | src/api/day.py:86 | the count over two lists of sections put together is the sum of their counts |
| DayApi.Completed | src/api/day.py:43-46 | the completed record takes the request's score and feedback and the completion time, and keeps title, blocks, action task and action-day flag |
| DayApi.Answer | src/api/day.py:55-93 | failed generation is a 500, a missing enrollment or next day a 404, in that order; a reply is served exactly when all three exist and the day total is defined; it carries day `current + 1`, that day's content, and the last-day flag exactly when `current + 1 >= total` |
| DayApi.GetNextDay | src/api/day.py:26-96 | an incomplete day is refused with 400 and nothing is written; otherwise an existing current-day record is replaced by its completed form and nothing else in the store changes; the reply is the one `Answer` gives on the enrollment and the next day as they were stored before the call, so day n+1 is served only when it already existed |
| DayApi.LastDayFlag | src/api/day.py:86-87 | in a roadmap of n days, serving day n or later sets the last-day flag and serving an earlier day does not |
| UserStats.RoundRatio | src/controllers/user.controller.ts:33 | `Math.round` of a non-negative ratio: the nearest whole number, halves rounded up |
| UserStats.CompletedIn | src/controllers/user.controller.ts:30 | the completed days of a section never exceed its days |
| UserStats.SectionCompleted | src/controllers/user.controller.ts:28-31 | a section's completed count is at most its total (0 both when it has no `days`) |
| UserStats.CompletedAtMostTotal | src/controllers/user.controller.ts:26-32 | over any plan the completed days never exceed the total days |
| UserStats.CountDays | src/controllers/user.controller.ts:27-32 | the loop over the sections yields the plan's completed and total day counts, completed at most total |
| UserStats.Progress | src/controllers/user.controller.ts:33 | the percentage is the rounded share of completed days, between 0 and 100, and 0 when the plan has no days |
| UserStats.ProgressEnds | src/controllers/user.controller.ts:33 | a fully completed plan is at 100 and an untouched one at 0 |
| UserStats.DailyAverage | src/controllers/user.controller.ts:46 | the daily average is the rounded XP per completed day when both are positive, otherwise 0 |
| UserStats.StreakOf | src/controllers/user.controller.ts:39-43 | a missing streak record gives 0, 0 and null; null or zero counts give 0; the last contribution is kept exactly when present and non-empty |
| UserStats.GetUserStats | src/controllers/user.controller.ts:8-60 | without a plan or sections all counts are 0; otherwise the plan's counts; the percentage, average and streak as above; the plan summary exactly when there is a plan |
| UserStats.GetUserStreak | src/controllers/user.controller.ts:72-91 | no streak record is a 404 with "No streak data found for user."; otherwise the stored record |
| XpQueries.Selected | src/services/dataConnect.queries.ts:229-275 | the query keeps exactly the user's rows whose day is COMPLETED, and no others |
| XpQueries.SumXPAppend | src/services/dataConnect.queries.ts:280-282 | the `reduce` sum over two lists put together is the sum of their sums |
| XpQueries.Breakdown | src/services/dataConnect.queries.ts:280-289 | the total is the sum of the three categories, and a missing list counts 0 |
| XpQueries.CalculateUserXP | src/services/dataConnect.queries.ts:224-298 | each category is the XP sum over the user's completed items of that table, and the total is their sum |
| XpQueries.GetUserXPBreakdown | src/services/dataConnect.queries.ts:580-653 | the breakdown query gives the same result as `calculateUserXP` |
| XpQueries.SelectedIgnoresOthers | src/services/dataConnect.queries.ts:232-240 | adding a row of another user, or of a day not completed, leaves the XP unchanged |
| XpQueries.NothingSelected | src/services/dataConnect.queries.ts:232-240 | with no completed row of the user nothing is selected |
| XpQueries.NoCompletedNoXP | src/services/dataConnect.queries.ts:224-298 | a user with no completed item anywhere has a total of 0 |
| XpQueries.SumXPNonNegative | src/services/dataConnect.queries.ts:280-282 | with non-negative stored XP each category sum is non-negative |
| XpQueries.GetUserProgress | src/services/dataConnect.queries.ts:437-479 | null enrollments become an empty list and the streak record is passed through |
| LearningPlan.OnlyDigits | src/controllers/learningPlan.controller.ts:30 | `replace(/\D/g, '')` leaves only digits, never lengthens the text, and leaves an all-digit text as it is |
| LearningPlan.OnlyDigitsAppend | src/controllers/learningPlan.controller.ts:30 | stripping non-digits from two texts put together is stripping each and putting them together |
| LearningPlan.OnlyDigitsOfChar | src/controllers/learningPlan.controller.ts:30 | a digit is kept and any other character dropped |
| LearningPlan.AvailableTimeMinutes | src/controllers/learningPlan.controller.ts:30 | the minutes are the number written by all the digits of the time text; 15 when the text is absent or has no digit |
| LearningPlan.HoursMisread | src/controllers/learningPlan.controller.ts:30 | "1h" is read as 1 minute and "1h 30" as 130 minutes |
| LearningPlan.PlainMinutes | src/controllers/learningPlan.controller.ts:30 | a time written as a plain number is read as that number |
| LearningPlan.FinalPlan | src/controllers/learningPlan.controller.ts:65-113 | the refined plan is kept exactly when the analysis and the refinement both succeed, the initial plan otherwise; the skill name is always the requested skill |
| LearningPlan.CreateLearningPlan | src/controllers/learningPlan.controller.ts:20-194 | invalid input is a 400 and a missing user a 401, both with nothing written; the preferences are written first; a failed generation is a 500 after that write only; a missing plan id is a 500 after the plan is saved; a plan is created exactly when generation and saving succeed, followed by the enrollment and the day-1 generation |
| LearningPlan.GetCurrentLearningPlan | src/controllers/learningPlan.controller.ts:199-225 | the plan is returned exactly when there is a user and an active plan; a user without a plan gets a 404 |
| LearningPlan.GetLearningPlanById | src/controllers/learningPlan.controller.ts:230-268 | no user is a 401, no id a 400, an unknown plan a 404, another user's plan a 403; the plan is returned exactly when it exists and belongs to the user |
| Notifications.PrepareNotification | src/services/llm/notifications.service.ts:25-70 | the payload the step-by-step updates build is exactly the reminder payload the analytics call for (title, body with key-insight fallback, data with type and deep link), and Ski is asked exactly when the streak risk is high with a strategy |
| Notifications.ReminderPayloadFacts | src/services/llm/notifications.service.ts:30-66 | the data always has a type and holds no keys but type and deep_link; the deep link is set exactly when there is an optimal window; a high risk wins the streak-saver title and type; Ski's message is the high-risk body unless empty or the default sentence; otherwise an optimal window gives its title; a medium risk's body opens with the streak sentence and its type is streak maintenance |
| Notifications.AchievementBody | src/services/llm/notifications.service.ts:142 | Ski's non-empty message, otherwise a stock sentence naming the achievement |
| Notifications.Addressed | src/services/llm/notifications.service.ts:100-111 | one message per token, in token order, each with the same title, body and data |
| Notifications.Outbox.SendAll | src/services/llm/notifications.service.ts:100-113 | every token gets the payload in order, failures do not stop the loop, and the result is true exactly when every delivery succeeded |
| Notifications.Outbox.SendLearningReminder | src/services/llm/notifications.service.ts:79-114 | no tokens returns false with nothing sent and Ski not asked; otherwise the reminder payload's title, body and data go to every token in order after what was sent before, Ski is asked once exactly on a high risk, and the result is true exactly when all were delivered |
| Notifications.Outbox.SendAchievement | src/services/llm/notifications.service.ts:123-156 | no tokens returns false before Ski is asked; otherwise Ski is asked once and the achievement payload goes to every token, true exactly when all were delivered |
| Tovi.CelebrationRequest | src/services/llm/toviTheFox.service.ts:143-157 | the celebration request names the user, the streak in days and the streak's milestone text |
| Tovi.GetSkiStreakCelebration | src/services/llm/toviTheFox.service.ts:140-192 | the request carries the milestone text; a result exists exactly when a reply came back and validates, and its streak count is always the requested one, the other fields as the reply gave them |
| Tovi.OrElse | src/services/llm/toviTheFox.service.ts:83 | the truthiness default: a non-empty text is kept, an absent or empty one gives the fallback |
| Tovi.MotivationalRequest | src/services/llm/toviTheFox.service.ts:76-103 | the request names the user ('Learner' as stand-in) and the streak (0 when absent), carries the analytics paragraph when there are insights, the details for a custom prompt, the first strategy for a streak-risk intervention, and ends with the closing instruction |
| Tovi.RequestHead | src/services/llm/toviTheFox.service.ts:80-96 | the opening of the request names the user and the streak and carries the analytics paragraph when there are insights |
| Tovi.RequestExtra | src/services/llm/toviTheFox.service.ts:98-103 | a custom prompt with details adds the details line, and a streak-risk intervention with strategies adds the first-strategy line |
| Tovi.EndsWithAppended | src/services/llm/toviTheFox.service.ts:103 | what the request appends last is its ending |
| Tovi.AppendKeeps | src/services/llm/toviTheFox.service.ts:90-103 | appending to the request keeps the user, streak and analytics lines already in it |
| Tovi.GetSkiMotivationalMessage | src/services/llm/toviTheFox.service.ts:76-135 | a message is returned exactly when a reply came back and validates, and its text is non-empty; the request names the user and carries custom details |
| SkiPersonality.GreetingName | agents/src/skillix_agents/ski_personality.py:86 | the user's name when non-empty, "amigo" otherwise |
| SkiPersonality.Greeting | agents/src/skillix_agents/ski_personality.py:84-95 | each known time of day has its own template and any other text the generic one; every greeting names the user |
| SkiPersonality.MilestoneText | agents/src/skillix_agents/ski_personality.py:99-108 | streaks of 3, 7, 14, 30, 50 and 100 days get their dedicated text; any other streak is "¡N días seguidos!" naming the count |
| SkiPersonality.CelebrationPrompt | agents/src/skillix_agents/ski_personality.py:97-118 | the celebration prompt names the user, the streak count and its milestone text |
| SkiPersonality.Phrases | agents/src/skillix_agents/ski_personality.py:31-50 | every category has four phrases, and an unknown category gets the greetings |
| SkiPersonality.RandomPhrase | agents/src/skillix_agents/ski_personality.py:143-146 | whatever the random draw, the phrase belongs to the category's list, the greetings for an unknown category |
| SkiPersonality.AnyFlag | agents/src/skillix_agents/ski_personality.py:150-158 | `any` over the flags is true exactly when one of them is set |
| SkiPersonality.ShouldSkiAppear | agents/src/skillix_agents/ski_personality.py:148-158 | Ski appears exactly when one of the five trigger flags is present and true; absent flags read false |
| SkiPersonality.OtherFlagsIgnored | agents/src/skillix_agents/ski_personality.py:150-156 | a flag outside the five triggers never changes the answer |
| Chat.SkillFocus | src/services/llm/chatOrchestrator.service.ts:75-79 | the user's own non-empty skill comes first, the current skill second, and there is no skill line exactly when neither is set |
| Chat.Line | src/services/llm/chatOrchestrator.service.ts:73-131 | each appended piece of the context ends with a newline |
| Chat.Head | src/services/llm/chatOrchestrator.service.ts:125-128 | `substring(0, 300)`: a prefix of at most that length, the whole text when it is shorter |
| Chat.PlanSection | src/services/llm/chatOrchestrator.service.ts:81-90 | the plan section is its plan and progress lines, then exactly one line for each of the section title, next-day topic and milestones that is set, the section title right after progress and the milestones last; every line newline-ended |
| Chat.PlanLines | src/services/llm/chatOrchestrator.service.ts:81-90 | the appends build exactly the plan section |
| Chat.DaySection | src/services/llm/chatOrchestrator.service.ts:92-100 | the recent-day section has its head line, the focus line right after it only when set, the objectives line always, and the key-concepts line only when there are concepts |
| Chat.DayLines | src/services/llm/chatOrchestrator.service.ts:92-100 | the appends build exactly the recent-day section |
| Chat.Observations | src/services/llm/chatOrchestrator.service.ts:104-116 | one line for each of the insights, the learning window (both ends set), the content suggestions (difficulty or a non-zero session length) and the streak risk that is present, each newline-ended |
| Chat.ObservationLines | src/services/llm/chatOrchestrator.service.ts:104-116 | the appends build exactly those observation lines |
| Chat.AnalyticsSection | src/services/llm/chatOrchestrator.service.ts:102-120 | the analytics section is its header, the observation lines in order, and a numeric engagement score last, written with two decimals |
| Chat.AnalyticsLines | src/services/llm/chatOrchestrator.service.ts:102-120 | the appends build exactly the analytics section |
| Chat.DetailedSection | src/services/llm/chatOrchestrator.service.ts:122-130 | the on-demand section has its header, then the plan detail line when a plan JSON is given and the day detail line last when a day JSON is given |
| Chat.DetailedLines | src/services/llm/chatOrchestrator.service.ts:122-130 | the appends build exactly the on-demand section |
| Chat.Opening | src/services/llm/chatOrchestrator.service.ts:73-79 | the context opens with the header and the user line, then the skill line exactly when a skill is set, naming the preferred skill |
| Chat.OpeningLines | src/services/llm/chatOrchestrator.service.ts:73-79 | the if / else if on the two skills builds exactly the opening |
| Chat.SectionLines | src/services/llm/chatOrchestrator.service.ts:81-131 | the appends give exactly the lines of the plan, recent-day, analytics and on-demand sections that are present, in that order, followed by the closing rule |
| Chat.ContextLines | src/services/llm/chatOrchestrator.service.ts:73-131 | the context's lines are exactly the opening followed by those sections and the closing rule |
| Chat.ContextShape | src/services/llm/chatOrchestrator.service.ts:73-131 | the whole context opens with the header and the user line, names the preferred skill next when there is one, then the first section present; every section present contributes its head lines, the closing rule ends it, and every line is newline-ended |
| Chat.LastN | src/services/llm/chatOrchestrator.service.ts:144 | `slice(-n)`: the last n entries in their order, or all of them when there are fewer |
| Chat.Messages | src/services/llm/chatOrchestrator.service.ts:133-156 | the system prompt, the context as a user message, the last ten history entries in order, and the user's input last |
| Chat.BuildMessages | src/services/llm/chatOrchestrator.service.ts:133-156 | the pushes build exactly that message list |
| Chat.HistoryWindow | src/services/llm/chatOrchestrator.service.ts:142-151 | a history of up to ten entries is forwarded whole; a longer one loses all but its last ten |
| Chat.ParseChatResponse | src/services/llm/chatOrchestrator.service.ts:174-178 | a reply validates exactly when its text is a non-empty string and its actions are not null; the validated reply keeps the fields as given |
| Chat.Fallback | src/services/llm/chatOrchestrator.service.ts:167-171 | a fallback answer has the given text, a null follow-up prompt and no actions |
| Chat.OrchestrateChatResponse | src/services/llm/chatOrchestrator.service.ts:68-192 | it always answers: a failed call or empty content gives the "cannot answer" fallback, unparsable or invalid content the "rephrase" fallback, otherwise the validated reply; the messages sent are the system prompt, the concatenated context text, the last ten history entries and the user's input |
| AnalyticsService.AnalyzeUserLearningPatterns | src/services/llm/analytics.service.ts:175-217 | null when the call fails, the text is not JSON or the object breaks the schema; otherwise the object itself, with a clock-time reminder, a whole session length of at least one minute, known enums and an engagement score in [0, 1] |
| AnalyticsService.PredictChurn | src/services/llm/analytics.service.ts:224-266 | null on any failure; otherwise the validated analysis, whose risk level is low, medium or high |
| AnalyticsService.NotificationStrategy | src/services/llm/analytics.service.ts:318-329 | a known pattern gets its own strategy and any other the morning one; every strategy has HH:MM times with the reminder half an hour before the primary time |
| AnalyticsService.NotificationStrategyAsWritten | src/services/llm/analytics.service.ts:328 | the lookup as written: a pattern naming an Object.prototype member returns that inherited member |
| AnalyticsService.StrategyPrototypeLeak | src/services/llm/analytics.service.ts:328 | the pattern "toString" yields an inherited function, not a strategy |
| AnalyticsService.StrategyAgreesOffPrototype | src/services/llm/analytics.service.ts:322-328 | for any pattern that is not a prototype member, the code and the intended lookup agree |
| AnalyticsAgent.Metric | agents/src/skillix_agents/analytics_agent.py:109-124 | `dict.get`: the stored value when the key is present, the default otherwise |
| AnalyticsAgent.AnalyzeUserData | agents/src/skillix_agents/analytics_agent.py:104-126 | the prompt opens by naming the user |
| AnalyticsAgent.EmptyHistoryDefaults | agents/src/skillix_agents/analytics_agent.py:109-124 | with an empty history the prompt's session, performance and engagement blocks read 0 sessions, no preferred times, a 0-day streak and unknown content and notification response |
| AnalyticsAgent.OtherKeysIgnored | agents/src/skillix_agents/analytics_agent.py:104-126 | a history key the prompt does not read never changes the prompt |
| AnalyticsAgent.GetNotificationStrategy | agents/src/skillix_agents/analytics_agent.py:147-172 | a known pattern gets its fixed strategy and an unknown one the morning strategy, the same table as the service's intended lookup; each reminder is half an hour before its primary time |
| AnalyticsAgent.TimezoneIgnored | agents/src/skillix_agents/analytics_agent.py:147-172 | the timezone never changes the strategy |
| AnalyticsAgent.RunDailyAnalytics | agents/src/skillix_agents/analytics_agent.py:175-201 | the placeholder analysis is coherent: the reminder comes before a window that ends within the day, the enums are known, the scores lie in [0, 1], the session length is positive |
| AnalyticsAgent.DailyAnalyticsIgnoresInputs | agents/src/skillix_agents/analytics_agent.py:175-201 | the placeholder is the same whatever the user and session data |
| ContentScale.GetContentScale | src/agentes/content_generator.py:93-121 | any text other than the four tier keys gets the "30+ minutes" scale; no tier exceeds it; every tier has at least two reading parts, questions and statements and one scenario |
| ContentScale.ScaleMonotone | src/agentes/content_generator.py:95-120 | no field decreases from a shorter tier to a longer one |
| ContentScale.UnlistedKeysGetLargest | src/agentes/content_generator.py:121 | "15 minutes" and "5 min" both get the largest scale, the lookup being by exact key |
| ErrorHandler.SegmentTexts | src/utils/errorHandler.ts:45 | one text per path segment, in order: the key itself or the index in decimal |
| ErrorHandler.FieldErrors | src/utils/errorHandler.ts:41-49 | one entry per Zod issue, in order, carrying the joined path, the message and the code |
| ErrorHandler.HandleError | src/utils/errorHandler.ts:21-76 | headers already sent means the error goes to `next` and nothing is written, and only then; otherwise a Zod error is a 400 whose entry i is issue i's dot-joined path with its message and code, an 'auth/' code a 403 carrying the code, a non-zero status that status with the message or a stock one, and anything else a 500 whose stack and details (the message) appear exactly in development |
| ErrorHandler.StatusOrigin | src/utils/errorHandler.ts:41-75 | a written reply is 400, 403, 500 or the error's own non-zero status |
| ErrorHandler.FieldNameRoundTrip | src/utils/errorHandler.ts:45 | splitting a reported field name on '.' gives back the path's keys when none contains a '.' |
| ErrorHandler.KeyPath | src/utils/errorHandler.ts:45 | a path made of object keys, one segment per key in order |
| ErrorHandler.CreateError | src/utils/errorHandler.ts:90-94 | the created error has the given message and status and no code |
| ErrorHandler.CreatedErrorAnswered | src/utils/errorHandler.ts:61-66 | an error from `createError` with a message and a non-zero status is answered with exactly that status and message |
| ErrorHandler.NotFound | src/utils/errorHandler.ts:81-85 | always a 404 whose message names the method and the original URL |
| ErrorHandler.AsyncHandler | src/utils/errorHandler.ts:5-10 | a rejection is forwarded to `next` with its reason, and only a rejection is |

## Left out

- Language-model and agent calls are inputs to the model, never run: the OpenAI calls, the ADK agents and runners, and the pedagogical expert. The prompt texts are modelled only where a property is about them, for example a name or a milestone that the prompt must carry. `analyze_and_plan_course` and the other agent-driving generators are modelled only in the events and folds that `AdaptiveOrchestrator` covers.
- Database and HTTP clients are left out. GraphQL strings and `executeGraphql` are not modelled. An insert is an entry in a log whose success is scripted. A query is a filter over stored rows.
- `createEnrollmentWithPlan` (src/services/dataConnect.complex.ts:287) is not part of this model. It is a single pass-through mutation.
- DataConnect.SkillAnalysisInserts, DataConnect.PedagogicalInserts, DataConnect.PlanBaseFailureStops: the source copies the language-model records into the inserts, the plan base field by field (src/services/dataConnect.complex.ts:29-41) and the analyses and components by spreading (55-81, 84-96); the logged rows keep only the fields the model reads. Dropped from `PlanBaseRow`: generatedAt (the current time), skillLevelTarget, milestones, progressMetrics. Dropped from `SkillAnalysisRow`: viabilityReason, realWorldApplications, complementarySkills. Dropped from `SkillComponentRow`: every component field but name, description and order. Dropped from `PedagogicalAnalysisRow`: effectivenessScore, engagementPotential, recommendations, assessmentStrategies, improvementAreas. The order, number and success of the inserts do not depend on these fields.
- Identity and authentication are inputs: the authenticated user arrives as an optional uid.
- Floating point is left out. `calculateEngagementScore` and `calculate_engagement_score` are not modelled: they are weighted float sums rounded with `toFixed`/`round`. Scores in the schemas are Dafny `real`s checked against [0, 1]. `Math.round` of the progress percentage and of the daily XP average is modelled exactly on integers.
- Chat.AnalyticsSection: the engagement score is given in hundredths, so `toFixed(2)` is exact; other float renderings are not modelled.
- `JSON.stringify` is not modelled. Chat.DetailedSection takes the JSON texts of the detailed context as given.
- The file store's JSON serialisation is assumed to be the identity, and so is pydantic's `model_dump`. Timestamps and uuids are parameters.
- DayApi.GetNextDay: src/api/day.py:3 imports `generate_next_day_content` from `src.agentes.orchestrator`, which does not define it; the only definition is the method `SkillixOrchestrator.generate_next_day_content` (agents/skillix_agents/orchestrator.py:100), so as written the import raises `ImportError` and the router never loads. The model takes the handler as the code intends, with the generator's success as an input. What the generator writes to the store (day n+1) is not modelled: the contract speaks of the store as it was before the call, and day n+1 is served only when it was already stored.
- DayApi.GetNextDay: `datetime.now(datetime.UTC)` (src/api/day.py:46) looks up `UTC` on the `datetime` class and, as written, raises `AttributeError`. That turns every completion of an existing day into a 500. The model stamps the given time, as the code intends.
- DayApi.Answer: `str()` of an `HTTPException` is rendered as Starlette renders it, status, colon and detail (for example "400: Current day must be completed before getting next day"); the model uses these fixed texts for the handler's own refusals and the quoted key for a `KeyError`, and does not model the text of any other exception.
- UserStats.GetUserStats: a failing lookup (the 500 'Internal server error.') is not modelled. The method takes the three lookups' results.
- UserStats.GetUserStats: `calculateUserTotalXP` is not part of this model. The total XP is an input; `XpQueries` models how the XP queries sum it.
- LearningPlan.CreateLearningPlan: only the Zod failure is distinguished among thrown errors (400). Database exceptions after the first write are not modelled.
- Notifications.Outbox.SendAll: the result is true exactly when every delivery succeeded. This follows the code; its doc comment says "at least one".
- AnalyticsAgent.AnalyzeUserData: the contract states the opening line only. `EmptyHistoryDefaults` and `OtherKeysIgnored` state the defaults and the keys read. History values are taken already rendered by Python's `str()`.
- Chat.Head: `substring(0, 300)` counts UTF-16 code units; the model counts characters, so text outside the Basic Multilingual Plane is cut at a different place. The schemas' minimum lengths (`.min(n)`) are counted the same way.
- UserStats.Progress: the share is rounded exactly. JavaScript computes `(completed / total) * 100` in floating point first, so 29 of 200 days gives 14 there (14.499999999999998) and 15 here.
- LlmSchemas.ParseLearningDay: Zod's ISO date-time check on `generatedAt` is the parameter `isDateTime`; its regular expression is not modelled.
- Adapter.TransformLearningPlan: `bloomsTaxonomy` (the entries of the Bloom distribution, in `Object.entries` order, with `parseInt` of each percentage) is not modelled.
- AdaptiveOrchestrator.BeforeModelCallback: a message whose `parts` is `None` (iterating it raises `TypeError`) is not modelled; a message is its list of parts, and a part is its optional text.
- AnalyticsAgent.RunDailyAnalytics: the agent call the placeholder stands for is not modelled.
- Tovi.MotivationalRequest: the request is stated through the lines it must contain and its closing line, not as one full text. The system prompt is not modelled.
- Tovi.MotivationalRequest: the engagement score is a JavaScript number (a fraction such as 0.7 in the source's tests, rendered "0.7" by the template string at src/services/llm/toviTheFox.service.ts:94); the model takes it as an integer and renders it in decimal, so the line for a fractional score and JavaScript's number-to-text conversion are not modelled. The rule that a missing or zero score leaves the line out is modelled.
- ContentAgent.GenerateCourseContent: the `eval(step.prompt)` quiz branch (src/agents/content.py:72) is a parameter that returns a block or an error.
- Text.Lower: case mapping is ASCII only. Python's `str.lower` and JavaScript's `toLowerCase` also map non-ASCII letters.
- ErrorHandler.HandleError: Express's check that a status code is valid is not modelled; the reply carries the status as given.
- ErrorHandler.AsyncHandler: a handler that throws synchronously, before it returns a promise, is not modelled. Only a resolved or a rejected promise is.
- The remaining source files are not part of this model: assessment generation, media, guardrails, the TTS and cloud uploads, the CLI, routers and server bootstrap, configuration, logging and the test scripts.

## Findings

| source | as written | input that shows it | evidently intended | confidence | as-written member | corrected member |
|---|---|---|---|---|---|---|
| src/agents/content.py:75 | `Block(**block_data)` calls `Block`, a `types.UnionType` of the nine block classes, which is not callable and raises `TypeError` | a preserved plan with one read step with non-empty text (`ContentAgent.PreserveAsWrittenFails`) | build the block class named by the step type | not executed | ContentAgent.PreservedAsWritten | ContentAgent.Preserved |
| dataconnect-bridge/services/dataconnect-adapter.js:233 | the lookup `mapping[category?.toLowerCase()]`, defaulting to 'OTHER', also finds members inherited from `Object.prototype` | category "Constructor" yields the `Object` constructor function (`Adapter.SkillCategoryPrototypeLeak`); lines 248 and 263 have the same lookup | 'OTHER' for every key that is not an own entry | not executed | Adapter.MapSkillCategoryAsWritten | Adapter.MapSkillCategory |
| src/services/llm/analytics.service.ts:328 | the lookup `strategies[userTimePattern]`, defaulting to the morning strategy, also finds members inherited from `Object.prototype` | pattern "toString" yields a function instead of a strategy (`AnalyticsService.StrategyPrototypeLeak`) | the morning strategy for every unknown pattern | not executed | AnalyticsService.NotificationStrategyAsWritten | AnalyticsService.NotificationStrategy |
| agents/src/skillix_agents/orchestrator.py:565-566 | `hasattr(part, 'text')` holds for every part, so `part.text.lower()` runs on a part whose text is `None` and raises `AttributeError`; the callback is registered on the agent that calls the two tools, so the model call after a tool call carries such a part | a request whose second message is the model's function call, a part without text (`AdaptiveOrchestrator.ToolTurnRaisesAsWritten`) | skip parts without text and scan only text | not executed | AdaptiveOrchestrator.BeforeModelCallbackAsWritten | AdaptiveOrchestrator.BeforeModelCallback |
