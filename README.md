# Cyber Career Pathfinder — a verified model

Cyber-path is a single-page career adviser for cybersecurity. A visitor
answers a ten-question questionnaire. The results page then ranks thirteen
catalog roles by a fixed scoring table and shows the best three as cards,
each with a display score. Picking a role opens its learning roadmap:
phases of topics with prerequisites. For each topic the visitor can tick it
as done, log hours and keep notes, and a dashboard shows completion, hours
and the next suggested topic. The whole session (answers, selected role,
progress, settings) is saved to local storage, and it can be exported to a
file and imported again. An AI mentor panel sends questions to a language
model, with a prompt built from the role, the topic and the progress. It
streams back the answer and lists the web sources cited, de-duplicated.

The Dafny model has one module per part of the program:

| module | file | models |
|---|---|---|
| `Types` | types.dfy | the records of `types.ts` (answers, questions, roles, roadmaps, progress, settings) |
| `Catalog` | catalog.dfy | the catalog of `constants.ts`, and its well-formedness: unique ids, acyclic prerequisites |
| `Scoring` | scoring.dfy | role scoring and ranking (`components/Results.tsx`) |
| `RoadmapProgress` | progress.dfy | progress records, the prerequisite warning, the next suggested topic, the dashboard, the roadmap lookup (`components/Results.tsx`) |
| `Quiz` | quiz.dfy | the questionnaire (`components/DecisionTree.tsx`) |
| `Session` | session.dfy | the application state, persistence, export and import, the theme (`App.tsx`) |
| `Mentor` | mentor.dfy | the mentor panel: prompt, stream, source de-duplication, quick actions (`components/AiMentor.tsx`) |
| `Collections` | collections.dfy | facts about set sizes used for counting, and subsequences used to state that a filter keeps order |

Some JavaScript behaviour is made explicit in the model:

- **Display score.** `Math.round(raw / 1.5)` is computed exactly as `(4*raw + 3) / 6` (floor division), then capped at 99.
- **Stable sort.** `Array.prototype.sort`, which is stable, is modelled by an insertion sort. Its result is proved ordered by (score descending, catalog position ascending) and to be a permutation of its input.
- **q6 as a string.** `q6.includes(v)` on a string answer is a substring search.
- **Missing answer key.** A key missing from the answer dictionary reads as `undefined`, which the Next-button guard counts as answered.
- **Mentor prompt.** The mentor's prompt builder calls `join` on the q6 answer. When that answer is not a list, the builder throws before the request's `try` block, and the panel stays in its loading state.

## Model

| member | source | states |
|---|---|---|
| Catalog.QuestionIdsAreUnique | constants.ts:4-15 | no two questions share an id |
| Catalog.OnlyQ6IsMultipleChoice | constants.ts:4-15 | there are ten questions and the sixth, q6, is the only multiple-choice one |
| Catalog.RoleIdList | constants.ts:17-31 | the thirteen roles carry, in order, the listed role ids |
| Catalog.RoleIdListIsDistinct | constants.ts:17-31 | the listed role ids are pairwise different |
| Catalog.RoleIdsAreUnique | constants.ts:17-31 | there are thirteen roles and no two share an id, so a lookup by id finds one role |
| Catalog.WebTopicIds | constants.ts:34-64 | the web pentester roadmap's topics, in order, have the ten listed ids |
| Catalog.SocTopicIds | constants.ts:65-86 | the SOC analyst roadmap's topics, in order, have the six listed ids |
| Catalog.AppSecTopicIds | constants.ts:87-106 | the application security roadmap's topics, in order, have the five listed ids |
| Catalog.TopicIdListIsDistinct | constants.ts:33-107 | the 21 listed topic ids of the three roadmaps are pairwise different |
| Catalog.DistinctIdListGivesDistinctTopics | constants.ts:33-107 | topics whose id list has no repeat have pairwise different ids |
| Catalog.TopicIdsAreUnique | constants.ts:33-107 | no two topics of the whole catalog share an id, so one progress map holds every roadmap's records without collision |
| Catalog.WebRoadmapPrerequisitesPointBackward | constants.ts:50-52 | every prerequisite of a web roadmap topic is the id of a topic at an earlier position of that roadmap |
| Catalog.SocRoadmapPrerequisitesPointBackward | constants.ts:80-81 | every prerequisite of a SOC roadmap topic names an earlier topic of that roadmap |
| Catalog.AppSecRoadmapPrerequisitesPointBackward | constants.ts:101-103 | every prerequisite of an application security topic names an earlier topic of that roadmap |
| Catalog.CatalogPrerequisitesPointBackward | constants.ts:33-107 | in every catalog roadmap prerequisites point backward, so the prerequisite graph is acyclic |
| Catalog.FirstTopicsHaveNoPrerequisites | constants.ts:41 | every catalog roadmap has a first topic, and it has no prerequisites |
| Scoring.RawScoreBounds | components/Results.tsx:267-305 | whatever the answers, a role's raw score lies between 30 and 145 |
| Scoring.OffenseOnlyScores | components/Results.tsx:267-279 | with only q1 answered, offense, an offensive role scores 80 and every other role 50 |
| Scoring.SocAnalystScores | components/Results.tsx:267-305 | a defender who prefers analysis and names networks gives the SOC analyst 50 + 30 + 25 + 30 = 135 |
| Scoring.AddedToDistinct | components/Results.tsx:284-296 | adding `delta` to each id of a repeat-free list adds `delta` to a listed key once and nothing to any other key |
| Scoring.AdjustmentListsAreDistinct | components/Results.tsx:284-296 | the coding, analysis and experienced role lists have no repeated id |
| Scoring.AddToEach | components/Results.tsx:284 | the `forEach(id => scores[id] += d)` loop keeps the keys and adds `d` once per occurrence of a key in the list |
| Scoring.InitialScores | components/Results.tsx:268-269 | the table has exactly the role ids as keys, each at the baseline 50 |
| Scoring.OrientRole | components/Results.tsx:275-277 | the three q1 tests for one role add the orientation bonus to that role's score and leave every other score alone |
| Scoring.AddOrientation | components/Results.tsx:272-279 | after the q1 loop each role's score has grown by its orientation bonus (30 when q1 names its category), keys unchanged |
| Scoring.AddStyle | components/Results.tsx:281-292 | after the q3 step each score has grown by its style bonus: 25 for the listed roles on coding or analysis, 10 for every key on both |
| Scoring.AddLevel | components/Results.tsx:294-297 | after the q5 step the three experienced roles lost 20 when q5 is beginner, every other score unchanged |
| Scoring.Bump | components/Results.tsx:301 | one `scores[id] += d` changes that key alone |
| Scoring.AddWebBonus | components/Results.tsx:301 | q6 including web_apps adds 40, 35 and 20 to the three web roles, nothing else |
| Scoring.AddNetworkBonus | components/Results.tsx:302 | q6 including networks adds 40 and 30 to the network pentester and the SOC analyst |
| Scoring.AddCloudBonus | components/Results.tsx:303 | q6 including cloud adds 40 and 20 to the cloud security and DevSecOps engineers |
| Scoring.AddMalwareBonus | components/Results.tsx:304 | q6 including malware adds 40 to the malware analyst |
| Scoring.AddInterests | components/Results.tsx:299-305 | after the q6 step each score has grown by the sum of the four interest bonuses that apply to it |
| Scoring.ComputeScores | components/Results.tsx:267-305 | the finished table has one key per role, holding the role's raw score: baseline plus every adjustment |
| Scoring.Insert | components/Results.tsx:308 | inserting into a sorted list adds exactly that element (as a multiset) |
| Scoring.SortByScore | components/Results.tsx:308 | the sort returns a permutation of its input |
| Scoring.InsertSorted | components/Results.tsx:308 | inserting an entry that comes later in the table than every sorted entry keeps the list sorted by score, ties in table order |
| Scoring.SortByScoreSorted | components/Results.tsx:308 | the stable sort on descending score yields a permutation sorted by score with ties in table order |
| Scoring.FindRole | components/Results.tsx:311 | `find` by id succeeds exactly when some role has that id, and returns such a role |
| Scoring.FindRoleAt | components/Results.tsx:311 | with unique ids, looking up a role's id returns that role |
| Scoring.DisplayScore | components/Results.tsx:312 | the display score is never above 99 |
| Scoring.DisplayScoreRounds | components/Results.tsx:312 | the display score is 99 exactly when raw/1.5 rounds to 99 or more; otherwise it is within half a unit of raw/1.5 |
| Scoring.ExampleDisplayScores | components/Results.tsx:312 | raw 80 and 50 show as 53 and 33; the catalog's SOC analyst on the example answers scores 135 and shows 90 |
| Scoring.TopFromTable | components/Results.tsx:307-309 | the first three after the sort are min(3, n) table entries, in ranking order |
| Scoring.LeftOutRanksBelow | components/Results.tsx:308-309 | in a sorted list, an element outside the first `n` ranks below each of them |
| Scoring.TopBeatsTheRest | components/Results.tsx:307-309 | every entry left out of the first three ranks below every entry chosen |
| Scoring.RecommendationsAreTheBest | components/Results.tsx:267-316 | the cards are min(3, n) roles in ranking order, each with the display score of its raw score and its own catalog role; no role left out has a higher raw score than a chosen one |
| Scoring.DisplayScoreRange | components/Results.tsx:312 | every card shows a score between 20 and 97 |
| Scoring.RecommendedRoles | components/Results.tsx:267-316 | the imperative computation (table, sort, first three, cards) yields exactly the specified recommendations |
| Scoring.CatalogRoleIds | constants.ts:17-31 | the catalog's role ids are the listed thirteen |
| Scoring.CatalogIdsNamed | components/Results.tsx:284-304 | every id the adjustment lists name is a catalog role id |
| Scoring.ListsNamedGiveTables | components/Results.tsx:284-304 | when a role list holds every listed id, the adjustment tables only name roles of that list |
| Scoring.CatalogRolesFitTheTables | components/Results.tsx:267-305 | the catalog has unique role ids and every id the adjustments name is a catalog role, so no adjustment creates a stray key |
| RoadmapProgress.ToggleComplete | components/Results.tsx:126-136 | only the topic's record changes: its flag is set, its date is `now` when ticked and absent when unticked, hours and notes kept |
| RoadmapProgress.LogHours | components/Results.tsx:138-147 | only the topic's record changes, and only its hours |
| RoadmapProgress.SaveNotes | components/Results.tsx:149-158 | only the topic's record changes, and only its notes |
| RoadmapProgress.ToggleMovesOnlyTarget | components/Results.tsx:126-136 | ticking adds the topic to the completed set, unticking removes it, and no other id moves |
| RoadmapProgress.ToggleOnThenOff | components/Results.tsx:126-136 | ticking then unticking leaves the record as it was, with the flag off and no date, whatever the two times |
| RoadmapProgress.HoursAndNotesKeepCompletion | components/Results.tsx:138-158 | logging hours and saving notes never change the completed set |
| RoadmapProgress.MissingPrerequisites | components/Results.tsx:53-55 | the missing list keeps the prerequisites' order, holds exactly the unticked ones, each as often as it is listed, and is empty exactly when all are ticked |
| RoadmapProgress.WarningIffPrerequisiteMissing | components/Results.tsx:76 | the warning shows exactly when the topic is unticked and some prerequisite is unticked |
| RoadmapProgress.NextSuggestedTopic | components/Results.tsx:174-189 | the scan returns the first topic, in phase-then-topic order, that is unticked with all prerequisites ticked, and nothing exactly when no topic is like that |
| RoadmapProgress.FirstReadyIsUnique | components/Results.tsx:174-189 | the first ready position is unique |
| RoadmapProgress.FirstIncomplete | components/Results.tsx:174-189 | if some topic is unticked, there is a first unticked topic, and all before it are ticked |
| RoadmapProgress.NoSuggestionIffAllCompleted | components/Results.tsx:174-189 | when prerequisites point backward, no suggestion is shown exactly when every topic is ticked |
| RoadmapProgress.EmptyProgressSuggestsFirstTopic | components/Results.tsx:174-189 | with no progress, every catalog roadmap suggests its first topic |
| RoadmapProgress.CatalogSuggestionNeverStuck | components/Results.tsx:174-189 | in each catalog roadmap the suggestion disappears only once every topic is ticked |
| RoadmapProgress.TotalTopics | components/Results.tsx:191 | the topic count is the number of topics over all phases |
| RoadmapProgress.IdSetBound | components/Results.tsx:191 | a list of topics has no more distinct ids than topics |
| RoadmapProgress.TotalHoursRemove | components/Results.tsx:193 | the hour total is one record's hours plus the total of the others, whichever record is taken |
| RoadmapProgress.LogHoursTotal | components/Results.tsx:138-147 | logging hours on a topic replaces that topic's old hours in the total |
| RoadmapProgress.CompletedRecordsCount | components/Results.tsx:192 | the count of completed records equals the size of the completed id set |
| RoadmapProgress.Percentage | components/Results.tsx:194 | 0 without topics, else within half a unit of completed/total*100 (`Math.round`) |
| RoadmapProgress.PercentageAtMost100 | components/Results.tsx:194 | while no more topics are completed than exist, the percentage is at most 100 |
| RoadmapProgress.DashboardOf | components/Results.tsx:191-194 | the dashboard counts the completed ids of the whole progress map and the topics of the roadmap |
| RoadmapProgress.OwnTopicsStayWithin100 | components/Results.tsx:191-194 | when every ticked record is a topic of the roadmap, completion is at most 100% |
| RoadmapProgress.IdsOfSnoc | components/Results.tsx:191 | appending a topic adds its id to the id set |
| RoadmapProgress.DistinctIdSetSize | components/Results.tsx:191 | topics with distinct ids have exactly as many ids as topics |
| RoadmapProgress.CongratulationsIffAllTicked | components/Results.tsx:191-230 | on a roadmap with distinct ids, while only its own topics are ticked, the congratulation banner shows exactly when it has topics and all of them are ticked |
| RoadmapProgress.AppSecRoadmapHasFiveTopics | constants.ts:87-106 | the application security roadmap has five topics |
| RoadmapProgress.SixWebTopicsDone | components/Results.tsx:160-162 | six ticked web-roadmap records make a completed set of six |
| RoadmapProgress.PercentageCanExceed100 | components/Results.tsx:192-194 | records of another roadmap count too: six ticked web topics show 120% on the five-topic application security roadmap |
| RoadmapProgress.FindRoadmap | components/Results.tsx:320 | `find` by id succeeds exactly when a roadmap has that id, and returns the first roadmap with it |
| RoadmapProgress.SelectedRoadmap | components/Results.tsx:318-321 | no roadmap without a selected role; with one, a roadmap exactly when the catalog has one with the role's roadmap id, and then a catalog roadmap with that id |
| RoadmapProgress.CatalogRolesHaveRoadmaps | components/Results.tsx:360 | every catalog role has its roadmap, so "Roadmap not found" never shows for a recommended role |
| Quiz.InitialAnswers | App.tsx:10-16 | the fresh dictionary has one key per question id, holding that question's initial entry |
| Quiz.AnsweredCount | components/DecisionTree.tsx:39 | the answered count never exceeds the number of keys |
| Quiz.InitialAnswersCountZero | components/DecisionTree.tsx:39-47 | a fresh dictionary has nothing answered |
| Quiz.LastIndexOf | components/DecisionTree.tsx:44 | every question has a last question with its id, at or after it |
| Quiz.AllAnsweredIff | components/DecisionTree.tsx:39-40 | with one key per question, the count equals the number of questions exactly when every question is answered |
| Quiz.DistinctIdsCount | components/DecisionTree.tsx:40 | with distinct ids there are as many ids as questions |
| Quiz.Without | components/DecisionTree.tsx:73 | `filter(a => a !== v)` drops every copy of `v` and keeps every other value, in order and as often as before; nothing changes when `v` is absent |
| Quiz.Toggle | components/DecisionTree.tsx:72-74 | a click removes every copy of a chosen value, keeping the other values in order and count, and appends an unchosen one at the end |
| Quiz.ToggleTwice | components/DecisionTree.tsx:72-74 | clicking an unchosen value twice gives the list back |
| Quiz.WithoutLast | components/DecisionTree.tsx:73 | filtering out a value just appended gives the list before the append |
| Quiz.WithoutKeepsDistinct | components/DecisionTree.tsx:73 | filtering keeps a list free of duplicates |
| Quiz.ToggleKeepsDistinct | components/DecisionTree.tsx:72-74 | a click never introduces a duplicate |
| Quiz.Questionnaire.constructor | components/DecisionTree.tsx:32-33 | the cursor starts on the first question |
| Quiz.Questionnaire.Answer | components/DecisionTree.tsx:35-37 | the entry of the question becomes the answer, every other entry and the cursor unchanged |
| Quiz.Questionnaire.SingleSelect | components/DecisionTree.tsx:66-68 | the current question's entry becomes the chosen value |
| Quiz.Questionnaire.MultiSelect | components/DecisionTree.tsx:70-76 | the current question's entry becomes the toggled list |
| Quiz.Questionnaire.Next | components/DecisionTree.tsx:49-53 | the cursor moves forward but never past the last question, answers unchanged |
| Quiz.Questionnaire.Back | components/DecisionTree.tsx:55-59 | the cursor moves back but never before the first question, answers unchanged |
| Quiz.Questionnaire.Reset | components/DecisionTree.tsx:42-47 | fresh answers (one initial entry per question, none answered) and the first question |
| Quiz.CatalogFinishNeedsEveryAnswer | components/DecisionTree.tsx:40 | for the catalog questions, the finish button is enabled exactly when all ten are answered |
| Quiz.CatalogFinishEnabled | components/DecisionTree.tsx:129-134 | with the catalog questions, the finish button is enabled exactly on the last question with all ten answered |
| Quiz.NextGate | components/DecisionTree.tsx:63-64 | a written entry enables Next exactly when it counts as answered, a single choice always does; a missing key enables Next but is not counted for finishing |
| Quiz.MultiSelectGate | components/DecisionTree.tsx:70-76 | a multiple-choice click leaves the question unanswered exactly when it removes the only value the list held |
| Quiz.WithoutOnlyValue | components/DecisionTree.tsx:73 | filtering `v` out of a list of nothing but `v` leaves it empty |
| Quiz.MultiSelectTwice | components/DecisionTree.tsx:70-76 | selecting an unselected value twice restores the question's list |
| Session.ImportDecision | App.tsx:112-145 | no file is ignored; an unreadable file, or one without a truthy version or answers, raises an alert; a valid file is declined or accepted by the user's answer; on acceptance the file's answers and role are installed, with its progress and settings or, when missing, empty progress and the default settings |
| Session.ExportImportRoundTrip | App.tsx:92-145 | importing an exported file, confirmed, gives back exactly the four exported slices |
| Session.LocalDocumentIsNotImportable | App.tsx:54-60 | the local save, offered as an import, raises the invalid-format alert |
| Session.ImportDefaults | App.tsx:132-135 | a file with only a version and answers installs those answers with no role, empty progress and the default settings |
| Session.RadiusCss | App.tsx:69-70 | every radius setting gives one of the three preset corner radii |
| Session.AccentPalette | App.tsx:72-77 | every accent setting gives one of the three palettes |
| Session.UnknownSettingsLookLikeDefault | App.tsx:69-77 | an undeclared radius or accent looks like the default one |
| Session.DeclaredThemesAreDistinct | App.tsx:69-77 | among declared settings, two radii look the same exactly when they are equal, and likewise accents |
| Session.AppSession.constructor | App.tsx:23-29 | the session starts on the questionnaire, with fresh answers, no role, no progress, default settings, not loaded |
| Session.AppSession.Restore | App.tsx:31-49 | each slice in the saved data replaces the current one, the results show when a role was saved, unreadable data is cleared, and loading always ends |
| Session.AppSession.Export | App.tsx:92-110 | the exported file, imported and confirmed, gives back the current four slices |
| Session.AppSession.Import | App.tsx:112-145 | an accepted file replaces all four slices and shows the results; any other outcome changes nothing; the alert shown is returned |
| Session.AppSession.FinishQuiz | App.tsx:83-85 | the results show and no slice changes |
| Session.AppSession.GoBackToQuiz | App.tsx:87-90 | the questionnaire shows and the selected role is dropped; the other slices are kept |
| Session.Startup | App.tsx:23-49 | a page load ends loaded, on the results exactly when a role was saved, with each saved slice or its default, the default answers being one initial entry per question |
| Session.Reload | App.tsx:31-64 | saving and loading again gives back the four slices, on the results exactly when a role was selected |
| Mentor.BuildContext | components/AiMentor.tsx:46-69 | without a role or topic the prompt is the question alone; with both, the prompt carries role, topic, q6 list and progress, and it fails exactly when q6 is not a list |
| Mentor.PromptProgressCounts | components/AiMentor.tsx:49-51 | the prompt's completed count is the number of completed records, as on the dashboard |
| Mentor.ConcatenationAppend | components/AiMentor.tsx:90-91 | the text of a stream split in two is the first part's text followed by the second's |
| Mentor.ReadStream | components/AiMentor.tsx:86-106 | the read loop's text is the concatenation of the fragments' texts; sources are the gathered chunks for the fast model and none for the pro model |
| Mentor.DedupSources | components/AiMentor.tsx:112-121 | the seen-uri loop keeps exactly the web chunks whose uri was not seen before, in order |
| Mentor.KeptIndicesWitness | components/AiMentor.tsx:112-121 | each kept chunk sits at an increasing source position, and every kept position is listed |
| Mentor.KeptAmongCoversUris | components/AiMentor.tsx:112-121 | every uri of a web chunk is the uri of some kept chunk |
| Mentor.KeptAmongDistinct | components/AiMentor.tsx:112-121 | the kept chunks are web chunks with pairwise different uris |
| Mentor.KeptAmongFromKept | components/AiMentor.tsx:112-121 | every kept chunk is a source chunk that the loop keeps |
| Mentor.KeptAmongProperties | components/AiMentor.tsx:112-121 | de-duplication keeps only web chunks, one per uri, from the sources, and loses no uri |
| Mentor.KeptAmongInOrder | components/AiMentor.tsx:112-121 | the kept chunks keep the order in which they arrived |
| Mentor.QuickActionQuestion | components/AiMentor.tsx:135-142 | an action outside the four known ones asks the empty question, and a known one never does |
| Mentor.QuickActionBlankIffUnknown | components/AiMentor.tsx:135-144 | the guard ignores a quick action exactly when the action is unknown |
| Mentor.BlankIffTrimmedEmpty | components/AiMentor.tsx:72 | a question is blank exactly when `trim` leaves the empty string |
| Mentor.TrimStartBlank | components/AiMentor.tsx:72 | trimming the front empties a string exactly when it is all white space |
| Mentor.TrimEndKeepsFirst | components/AiMentor.tsx:72 | trimming the end never removes a first character that is not white space |
| Mentor.ReplyMessages | components/AiMentor.tsx:86-132 | a full stream adds one model message with the whole text; a failure before streaming adds only the fixed error message; a failure mid-stream keeps the text received so far, with an empty source list, followed by the error message |
| Mentor.StreamedSourcesAreDeduplicated | components/AiMentor.tsx:93-121 | a fast-model reply lists its stream's grounding chunks de-duplicated: web chunks only, one per uri, each a chunk the loop keeps, and no uri of the stream lost |
| Mentor.ProModelHasNoSources | components/AiMentor.tsx:93-98 | a reply from the pro model lists no sources |
| Mentor.MentorPanel.constructor | components/AiMentor.tsx:31-33 | the panel starts with no messages, empty input, not loading |
| Mentor.MentorPanel.Open | components/AiMentor.tsx:36-40 | opening or switching topic clears the chat |
| Mentor.MentorPanel.Send | components/AiMentor.tsx:71-133 | a blank question or a busy panel changes nothing; otherwise the user's message is added and the input cleared, then either the panel stays loading (the prompt failed) or the reply's messages are added and loading ends |
| Mentor.MentorPanel.QuickAction | components/AiMentor.tsx:135-144 | an unknown action, or any action while loading, changes nothing; a known one clears the input, adds the user's question and sends it to the fast model: the panel stays loading if the prompt fails, else the reply's messages are added and loading ends |

## Left out

- Rendering: the JSX markup, CSS classes, icons, the progress bar width, scrolling of the chat and the loading spinner.
- The settings dialog is not part of this model. Settings are only stored, exported, imported and looked up.
- The theme effect's writes to the document's CSS variables are left out. `RadiusCss` and `AccentPalette` give the values it would write.
- Browser storage, the file picker, the `FileReader`, `alert`, `confirm` and JSON parsing become inputs. The input types are `Stored`, `FileRead` (no file, not text, unparseable, parsed) and the user's yes/no.
- A JSON document is given field by field. A missing or falsy field is `None`. Text that fails to parse, or parses to `null` (the one value on which the source's field access throws), is given as `Unparseable` (import) or `Corrupt` (start-up). Any other parsed value that is not an object (a number, a string, a boolean, an array) is a `Document` with every field `None`: at start-up it changes nothing and is not removed, and on import it raises the invalid-format alert.
- A stored or imported field is taken to have the right shape. The source installs whatever a file holds, unchecked.
- `exportVersion` is a string. Any other truthy JSON value would also pass the source's check.
- The clock is a parameter: `new Date().toISOString()` becomes the `now` string.
- The download of the export file (Blob, object URL, anchor click) is left out. `Export` gives the document written.
- The language-model service and the network are a `Reply` input: a full stream of fragments, a failure before streaming, or a failure after some fragments. The `async` steps and the intermediate message updates during streaming are not modelled. Only the final messages are.
- Mentor.BuildContext: the prompt is a structured value carrying what the text template is filled from; the template text itself is not rendered.
- The topic title map (`components/Results.tsx:164-172`) only feeds the display of prerequisite names and is not modelled.
- Object key order: `Object.entries` and `Object.values` are taken in insertion order. JavaScript puts integer-like keys first, and no catalog id is integer-like.
- Keys inherited from the JavaScript object prototype (such as `constructor`) are not modelled in the answer, score and progress dictionaries.
- Session.RadiusCss: a radius naming an inherited prototype key is treated as unknown and gets the default radius. In the source, `radii['constructor']` is the `Object` function, which is truthy, so that function is written as the radius.
- Session.AccentPalette: an accent naming an inherited prototype key is treated as unknown and gets the indigo palette. In the source, `colors['toString']` or `colors['__proto__']` is an object without the palette's fields, so no accent colour is written at all.
- Session.UnknownSettingsLookLikeDefault: holds only for names that are not inherited prototype keys, for the two reasons above.
- RoadmapProgress.LogHours: the hours are an integer. The source stores `Number(input)`, which can be a fraction or `NaN`, and floating point is not modelled.
- RoadmapProgress.Percentage: computed on integers as round-half-up of `completed * 100 / total`; the source's floating-point division can differ from this at exact halves.
- RoadmapProgress.DashboardOf: the hour total and the completed-record count are ghost definitions (sums over a map), so the dashboard is a ghost function.
- The "Ask AI" button that opens the mentor on a topic only sets two display values and is not modelled.
