# VARK test and classroom join, modelled in Dafny

The application is a small learning platform. Students take a VARK
questionnaire: ten questions, and each option stands for one learning style
(visual, auditory, reading/writing or kinesthetic). The answers are tallied
into four scores and a dominant style is picked. Teachers create classrooms
identified by six-character join codes, and they post activities tagged with a
learning style. Students join a classroom by typing its code.

This project models the logic of four files and proves properties of it:

- `src/data/varkQuestions.ts` becomes module `VarkQuestions`. It holds the
  question bank, the closed set of styles and the style tags.
- `src/components/VarkTest.tsx` becomes module `VarkTest`.
  - The tally and the tie-break are pure functions: `Tally`, `MaxScore` and
    `Dominant`.
  - `calculateResult` is a method that loops over the answers (`CalculateResult`).
  - The component's state is the class `VarkTestSession`. Its methods are
    `SelectOption` and `HandleNext`.
- `src/components/StudentHome.tsx` becomes module `StudentHome`, with the
  helper modules `JsString`, `LocalStorage` and `Records`.
  - The join protocol is stated as the function `JoinResult`. The method
    `TryJoin` runs the source's steps and is proved equal to it.
  - The two scans of the key-value store are methods with loops that `break`
    early (`FindClassroomByCode` and `FindClassroomActivities`). Each is proved
    against a recursive specification function.
  - The component's state is the class `StudentHome`.
- `src/components/TeacherHome.tsx` becomes module `TeacherHome`. It covers
  code generation from supplied random draws, the per-style counters, the
  activity-creation guard and the colour lookup.
- The `getStyleLabel` table appears in both home components with the same text.
  It lives once, in module `StyleTables`.

Modelling choices:

- **Store.** `localStorage` is a sequence of entries in key order. Each entry
  holds a value that is already decoded: a list of classrooms or a list of
  activities.
- **Reads and writes.** `getItem` reads the first entry under a key. `setItem`
  overwrites that entry, or appends a new entry when the key is absent. A
  browser store holds each key once (`DistinctKeys`); `setItem` keeps it so,
  and under it the scans' reading of an entry's value is the `getItem` of its
  key that the source performs.
- **Key prefixes.** `key.replace(prefix, '')` is modelled as a replacement of
  the first occurrence, as JavaScript does. `ReplacePrefix` proves that on a key
  starting with the prefix this removes exactly the prefix.
- **`trim` and `toUpperCase`.** `trim` removes the ECMAScript white-space and
  line-terminator characters. `toUpperCase` maps the ASCII lower-case letters.
- **Falsy strings.** `foundTeacherId || undefined` makes an empty teacher id
  absent. `!selectedClassroom` treats the empty id as no selection. Both are
  modelled.
- **Random draws.** `Math.floor(Math.random() * 32)` is replaced by a supplied
  sequence of `Draw` values, each a natural number below 32.
- **Repeated completion.** `VarkTestSession.results` records every call of
  `calculateResult`. The component stays on the last question while the result
  is being saved. The model keeps the source's behaviour there: selecting again
  and pressing the button once more appends an eleventh answer and calculates a
  second result. The invariant `|answers| == currentQuestion + |results|`
  captures this.
- **Where each view stores its data.** The teacher view writes classrooms and
  activities to the backend (`TeacherHome.tsx:61-65, 88-94`). The student view
  looks for them in the browser's store under `classrooms_<teacherId>` and
  `activities_<classroomId>` keys. No file shown here writes those keys, so
  their contents are inputs of the model.
- **No back navigation.** The test has no way back to a previous question.
- **No duplicate-code check.** Classroom creation does not check that a new
  code is unused (`TeacherHome.tsx:59-65`).
- **No attachment checks.** The activity handler does not check the title:
  only the form's `required` attribute (`TeacherHome.tsx:335`) keeps an empty
  title from being submitted, and no minimum length is checked anywhere. No
  attachment limit is set.
- **No search.** There is no text search over activities.

None of the four missing features above is modelled as behaviour.

## Model

| member | source | states |
|---|---|---|
| VarkQuestions.ParseStyle | src/data/varkQuestions.ts:6 | a string is read as a style only when it is that style's tag; any other string belongs to no style |
| VarkQuestions.StyleNameRoundTrip | src/data/varkQuestions.ts:6 | the four tags are distinct: reading a style's tag back gives the style |
| VarkQuestions.BankIsWellFormed | src/data/varkQuestions.ts:10-110 | the bank has exactly 10 questions; question i has id i+1 and four options tagged visual, auditory, reading, kinesthetic in that order |
| VarkQuestions.EveryStyleSelectable | src/data/varkQuestions.ts:12-18 | question ids are pairwise distinct, and every style is offered on every question |
| VarkQuestions.OptionKindsDistinct | src/data/varkQuestions.ts:14-19 | within a question no style is offered twice |
| VarkTest.Bump | src/components/VarkTest.tsx:40 | `scores[answer]++` raises that style's score by one, leaves the other three unchanged and raises the total by one |
| VarkTest.TallyTotal | src/components/VarkTest.tsx:32-41 | the four scores add up to the number of answers |
| VarkTest.TallyCountsOccurrences | src/components/VarkTest.tsx:39-41 | each style's score is the number of times it occurs among the answers |
| VarkTest.TallyCountsEveryStyle | src/components/VarkTest.tsx:39-41 | the same, for all four styles at once |
| VarkTest.MaxScore | src/components/VarkTest.tsx:43 | `Math.max` of the scores is at least every score and equals one of them |
| VarkTest.Dominant | src/components/VarkTest.tsx:43-49 | the dominant style has the maximal score, and every style earlier in the check order has a strictly smaller score |
| VarkTest.DominantIsUnique | src/components/VarkTest.tsx:43-49 | those two properties determine the dominant style: any style that has both is the one chosen |
| VarkTest.TieBreak | src/components/VarkTest.tsx:46-49 | visual is chosen iff it is maximal; auditory iff it is maximal and beats visual; reading iff it is maximal and beats visual and auditory; kinesthetic iff it beats all three others strictly |
| VarkTest.ExampleTrace | src/components/VarkTest.tsx:31-49 | answers with 4 visual, 2 auditory, 3 reading and 1 kinesthetic score (4, 2, 3, 1), and visual is dominant |
| VarkTest.CalculateResult | src/components/VarkTest.tsx:31-49 | the loop leaves scores that sum to the number of answers, each counting the occurrences of its style; the dominant style is `Dominant` of those scores |
| VarkTest.VarkTestSession.constructor | src/components/VarkTest.tsx:12-14 | the test starts at question 0 with no answers and no selection |
| VarkTest.VarkTestSession.SelectOption | src/components/VarkTest.tsx:96 | clicking an option of the current question selects it; nothing else changes |
| VarkTest.VarkTestSession.HandleNext | src/components/VarkTest.tsx:17-29 | without a selection nothing changes. Otherwise exactly the selected option's style is appended and the selection cleared. Before the last question the index advances by one; on the last question a result computed from the answers is produced. The first result receives exactly 10 answers. The answer count stays `currentQuestion` plus the number of results |
| VarkTest.TakeTest | src/components/VarkTest.tsx:17-49 | answering all ten questions in turn yields one answer per question, each the chosen option's style, and exactly one result: the tally and dominant style of those answers |
| JsString.TrimStart | src/components/StudentHome.tsx:115 | the part of `trim` that removes only leading white space, and all of it |
| JsString.TrimEnd | src/components/StudentHome.tsx:115 | the part of `trim` that removes only trailing white space, and all of it |
| JsString.TrimSpec | src/components/StudentHome.tsx:115 | `trim` returns a middle part of the input with only white space around it, and that part neither starts nor ends with white space |
| JsString.TrimKeepsTrimmed | src/components/StudentHome.tsx:115 | a string that neither starts nor ends with white space is its own trim |
| JsString.ToUpper | src/components/StudentHome.tsx:115 | upper-casing keeps the length |
| JsString.ToUpperSpec | src/components/StudentHome.tsx:115 | after upper-casing no lower-case letter is left; each lower-case letter becomes its capital, and every other character is kept |
| JsString.ToUpperIdempotent | src/components/StudentHome.tsx:115 | upper-casing twice equals upper-casing once |
| JsString.IndexOfFrom | src/components/StudentHome.tsx:138 | the search used by `replace` finds the first occurrence at or after the start position, or -1 when there is none |
| JsString.ReplacePrefix | src/components/StudentHome.tsx:136-138 | on a key starting with the prefix, `replace(prefix, '')` removes exactly the prefix |
| JsString.StripPrefixIff | src/components/StudentHome.tsx:84-88 | a key starts with the prefix and loses it to give `rest` exactly when the key is the prefix followed by `rest` |
| LocalStorage.GetItem | src/components/StudentHome.tsx:60 | reading a key gives nothing exactly when no entry has that key, and otherwise the value of the first entry under it |
| LocalStorage.SetItem | src/components/StudentHome.tsx:106 | writing adds at most one entry |
| LocalStorage.SetItemThenGet | src/components/StudentHome.tsx:106 | after a write, the key reads as the written value and every other key reads as before |
| LocalStorage.EntryIsGetItem | src/components/StudentHome.tsx:139 | in a store whose keys are distinct, `getItem` of an entry's key returns that entry's value |
| LocalStorage.SetItemKeepsKeysDistinct | src/components/StudentHome.tsx:106 | a write keeps the keys of the store distinct |
| LocalStorage.SetItemKeepsOtherEntries | src/components/StudentHome.tsx:106 | a write keeps every entry under another key, at its position; any entry under another key in the result was there before |
| StyleTables.StyleLabel | src/components/TeacherHome.tsx:107-115 | a known tag gets its Portuguese label, and any other string is shown unchanged; the result equals the input exactly when the tag is unknown |
| StyleTables.LabelsDistinct | src/components/StudentHome.tsx:250-258 | different styles get different labels |
| StudentHome.NormalizeIdempotent | src/components/StudentHome.tsx:115 | normalising an already normalised code changes nothing |
| StudentHome.NormalizeExample | src/components/StudentHome.tsx:115 | " 7k3mxq " normalises to "7K3MXQ" |
| StudentHome.FindByCode | src/components/StudentHome.tsx:140 | `find` gives nothing exactly when no classroom has the code, and otherwise the first classroom that has it |
| StudentHome.ContainsId | src/components/StudentHome.tsx:159 | `some` holds exactly when a classroom of the list has that id |
| StudentHome.FirstWithCodeSpec | src/components/StudentHome.tsx:132-146 | the scan fails exactly when no `classrooms_` entry, of any teacher, lists the code. Otherwise it returns the first such classroom, in key order and then list order. The teacher id is the key without its prefix |
| StudentHome.ScanReadsGetItem | src/components/StudentHome.tsx:136-146 | in a store with distinct keys, the list the scan searches at the entry it stops at is the `getItem` of that entry's key |
| StudentHome.FirstWithCodeIgnoresOtherKeys | src/components/StudentHome.tsx:132-152 | writing a key that does not start with `classrooms_` does not change what the scan finds, in the model's key order |
| StudentHome.FindClassroomByCode | src/components/StudentHome.tsx:128-152 | the loop with `break` finds a classroom exactly when the scan specification does, and returns the same classroom and teacher id; the teacher id stays empty when nothing is found |
| StudentHome.JoinRejections | src/components/StudentHome.tsx:115-162 | each refusal happens exactly in its case, in the source's order: empty code, length other than 6, no classroom with the code under any teacher, classroom already held (compared by id) |
| StudentHome.JoinedClassroom | src/components/StudentHome.tsx:159-168 | a successful join returns the first classroom with the normalised 6-character code, with `original_teacher_id` set to its key's teacher id, and its id is not yet in the student's list |
| StudentHome.JoinKeepsIdsDistinct | src/components/StudentHome.tsx:159-171 | appending the joined classroom keeps the ids in the student's list pairwise distinct |
| StudentHome.JoinTwiceRefused | src/components/StudentHome.tsx:159-173 | after a join and its save, the same code is refused as already joined, in the model's key order |
| StudentHome.CrossTeacherExample | src/components/StudentHome.tsx:115-168 | a classroom stored only under a second teacher's key is found from " 7k3mxq ", with that teacher's id |
| StudentHome.FirstActivitiesIsGetItem | src/components/StudentHome.tsx:81-93 | the prefix scan reads the same list as a direct read of `activities_` + id |
| StudentHome.FindClassroomActivities | src/components/StudentHome.tsx:78-97 | the loop gives the list stored under `activities_` + id, or the empty list when there is none |
| StudentHome.TryJoin | src/components/StudentHome.tsx:115-168 | the throw chain of the join computes exactly `JoinResult` |
| StudentHome.StudentHome.constructor | src/components/StudentHome.tsx:36-41 | the initial state has no classrooms, no activities, an empty code, no selection, no error and a closed form |
| StudentHome.StudentHome.LoadStudentClassrooms | src/components/StudentHome.tsx:58-73 | a saved list replaces the classrooms, and its first classroom is selected when nothing (or the empty id) was selected; without a saved list nothing changes |
| StudentHome.StudentHome.LoadClassroomActivities | src/components/StudentHome.tsx:75-103 | the activities become the list stored for the classroom, or the empty list; nothing else changes |
| StudentHome.StudentHome.HandleJoinClassroom | src/components/StudentHome.tsx:109-190 | on a refusal only the error message changes, to that refusal's message. On success the joined classroom is appended and the list saved under the student's key. The classroom is then selected, and the form closed and cleared |
| StudentHome.InfoStyle | src/components/StudentHome.tsx:247 | `getStyleInfo` uses the record of the tagged style, and falls back to visual exactly for the visual tag or an unknown tag |
| StudentHome.StyleColor | src/components/StudentHome.tsx:260-268 | a known tag gets its colour classes; the gray default is given exactly for an unknown tag |
| StudentHome.FileTypeLabel | src/components/StudentHome.tsx:270-286 | a listed MIME type gets its label; "Arquivo" is given exactly when the type is missing or not listed |
| TeacherHome.AlphabetFacts | src/components/TeacherHome.tsx:75 | the code alphabet has 32 symbols, none of them 0, O, 1 or I |
| TeacherHome.AlphabetDistinct | src/components/TeacherHome.tsx:75 | no symbol occurs twice in the alphabet, so different draws give different symbols |
| TeacherHome.CodeOf | src/components/TeacherHome.tsx:77-78 | the code spelled by the draws has one symbol per draw, namely the alphabet symbol at that index |
| TeacherHome.GenerateCode | src/components/TeacherHome.tsx:74-81 | the loop builds the code of the six draws: six alphabet symbols, none of them 0, O, 1 or I |
| TeacherHome.EveryJoinCodeGenerated | src/components/TeacherHome.tsx:74-81 | every six-symbol string over the alphabet is produced by some six draws |
| TeacherHome.WithStyle | src/components/TeacherHome.tsx:223 | the filter keeps exactly the activities carrying that style, and never more than the list |
| TeacherHome.StyleCounts | src/components/TeacherHome.tsx:219-223 | one counter per style in the order visual, auditory, reading, kinesthetic; each is the number of activities with that style |
| TeacherHome.StyleCountIsOccurrences | src/components/TeacherHome.tsx:223 | the counter shown for a style is the number of activities tagged with it, duplicates included |
| TeacherHome.StyleCountConcat | src/components/TeacherHome.tsx:223 | counting splits over concatenation: each activity adds to its own style's counter |
| TeacherHome.StyleCountsSum | src/components/TeacherHome.tsx:219-223 | when every activity has a valid style, the four counters add up to the number of activities |
| TeacherHome.ActivityInsertFor | src/components/TeacherHome.tsx:83-94 | nothing is inserted exactly when no classroom (or the empty id) is selected; otherwise the insert carries the selected classroom, the teacher, and the form's title, description and style |
| TeacherHome.StyleColor | src/components/TeacherHome.tsx:117-125 | a known tag gets its colour classes; the gray default is given exactly for an unknown tag |
| VarkTest.Tally | src/components/VarkTest.tsx:39-41 | the scores after the `forEach`; see `TallyTotal` and `TallyCountsOccurrences` for what they count |
| JsString.Trim | src/components/StudentHome.tsx:115 | `trim`; see `TrimSpec` and `TrimKeepsTrimmed` |
| JsString.Replace | src/components/StudentHome.tsx:138 | `replace` with a string pattern, first occurrence; see `ReplacePrefix` and `StripPrefixIff` |
| StudentHome.NormalizeCode | src/components/StudentHome.tsx:115 | the normalised code; see `NormalizeIdempotent` and `NormalizeExample` |
| StudentHome.ErrorMessage | src/components/StudentHome.tsx:117-161 | the message of each refusal; see `StudentHome.HandleJoinClassroom`, which puts it in `error` |
| StudentHome.FirstWithCode | src/components/StudentHome.tsx:131-152 | the global scan; see `FirstWithCodeSpec`, `ScanReadsGetItem` and `FindClassroomByCode` |
| StudentHome.WithTeacher | src/components/StudentHome.tsx:165-168 | the found classroom with `original_teacher_id` set: absent exactly when the teacher id is empty (`foundTeacherId \|\| undefined`), the teacher id otherwise, every other field unchanged |
| StudentHome.JoinResult | src/components/StudentHome.tsx:109-190 | the outcome of a join; see `JoinRejections`, `JoinedClassroom`, `JoinKeepsIdsDistinct`, `JoinTwiceRefused` and `TryJoin` |
| StudentHome.FirstActivities | src/components/StudentHome.tsx:78-95 | the activities scan; see `FirstActivitiesIsGetItem` and `FindClassroomActivities` |
| TeacherHome.StyleCount | src/components/TeacherHome.tsx:223 | one counter; see `StyleCountIsOccurrences` and `StyleCountConcat` |

## Left out

- The wording of the questions and options is not used by the proofs. It is
  kept as the data constant `VarkQuestions.Wording`, and the bank itself holds
  each question's id and the style of each option.
- The backend calls are not modelled:
  - the `vark_results` insert and the `onComplete` callback (`VarkTest.tsx:51-62`);
  - `loadClassrooms`, `loadActivities` and the classroom and activity inserts (`TeacherHome.tsx:30-72, 88-104`);
  - everything in `src/lib/supabase.ts`.

  They are network I/O to a backend that is not part of this model.
  `ActivityInsertFor` gives the row that would be sent. The closing and
  resetting of the form after a successful insert is left out.
- JSON encoding and decoding are not modelled. A value that fails to parse
  (the `catch` branches at `StudentHome.tsx:70, 99, 148`) cannot occur in the
  typed store, and a list with an unexpected shape reads as an empty list.
- Asynchrony, `setLoading` and the `useEffect` wiring are not modelled, nor is
  the batching of React state updates. Each handler is one atomic step on the
  state.
- Rendering, modals, styling, `downloadFile` and date formatting are not
  modelled. They are presentation or browser APIs.
- `Login.tsx`, `SignUp.tsx` and `App.tsx` are not part of this model.
- `Math.random` is not modelled. A draw is a supplied natural number below 32,
  so the model does not cover the distribution of codes.
- JsString.ToUpper: does not model upper-casing beyond ASCII (accented or
  other non-ASCII letters are kept as they are), because the Unicode case
  tables are not modelled. A code of six ASCII symbols is unaffected.
- StudentHome.JoinRejections: the 6-character check is on the model's
  characters, while JavaScript's `length` counts UTF-16 code units, so a
  character outside the Basic Multilingual Plane counts twice in the source.
  Because upper-casing is ASCII-only here, it also misses the cases where
  `toUpperCase` changes the length (`ß` becomes `SS`) or turns a non-ASCII
  letter into a code symbol (`ſ` becomes `S`).
- LocalStorage.SetItem: appends a new key at the end and keeps every other
  entry in place. A browser does not promise this: the order of `key(i)` is
  up to the browser and may change when a key is added, and only overwriting
  an existing key keeps it. The student's first save adds such a new key
  (`student_classrooms_<id>`). StudentHome.FirstWithCodeIgnoresOtherKeys and
  StudentHome.JoinTwiceRefused therefore hold in the model's key order. With
  duplicate codes under two teachers' keys, which classroom creation does not
  prevent, a browser that reorders keys could make the second scan find the
  other classroom.
- TeacherHome.ActivityInsertFor: the form's `required` validation of the
  title (`TeacherHome.tsx:335`) is not modelled, so the model builds an insert
  for an empty title that the form would block.
- The join form's own input handling is not modelled: its `onChange`
  upper-cases, and it has `maxLength={6}` and `required`
  (`StudentHome.tsx:557-563`). `StudentHome.classroomCode` therefore also takes
  strings the form never submits, such as the 8-character " 7k3mxq " of
  `CrossTeacherExample`.
- A failing `localStorage.setItem`, such as a quota error, is not modelled.
  In the source it comes after `setClassrooms` (`StudentHome.tsx:172-173`) and
  ends in the outer `catch`. The in-memory store cannot take that path.
- StudentHome.FileTypeLabel: does not model property names inherited from
  `Object.prototype` (such as `"constructor"`), which the source's `Record`
  lookup would return as a truthy value. The same holds for
  `StudentHome.StyleColor`, `StudentHome.InfoStyle`, `StyleTables.StyleLabel`
  and `TeacherHome.StyleColor`.
- `StudentHome.StyleInfoFor`, the full `getStyleInfo` record, is defined as
  the record of `InfoStyle(style)`. Its texts carry no contract of their own.
