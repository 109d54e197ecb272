# Entry forms of the school management front end, modelled in Dafny

This project models the state-and-payload layer of the four entry forms of a
madrasa/school management web front end: instructors, attendance, recitation
tracking and exams. Each form is a state holder. It is seeded from an optional
existing record and edited one field at a time by event handlers. On submit it
turns its state into the payload handed to the parent's `onSave`.

- `wrappers.dfy` (`Wrappers`): `Option` (an `undefined`/`null` value, or a NaN
  parse) and `Fetch` (a request that loaded or failed).
- `js_numbers.dfy` (`JsNumbers`): the JavaScript conversions the handlers use.
  `ParseInt` is the global `parseInt(s)` with no radix, as in section 19.2.5 of
  ECMA-262: it skips leading white space, takes one optional sign, switches to
  radix 16 on a `0x`/`0X` prefix, then reads the longest run of digits. NaN is
  `None`. `IntToString` is `Number.prototype.toString` on an integer. The round
  trip between the two is proved, including with trailing text. The exception
  is `0` followed by `x`, which `parseInt` takes for a hex prefix.
- `instructor_form.dfy` (`Instructors`): class `InstructorForm` with
  `formData`, `imageFile` and `loading`. Submit first runs the password check.
  It then builds a multipart body as a `seq<(string, Part)>`, with
  `Part = Text(string) | FileRef(File)`. `BuildMultipart` appends part by part
  in three loops and is proved equal to the specification function `Payload`.
  The lemmas about `Payload` cover the order, the count, the repeated list
  parts and the image part.
- `attendance_form.dfy` (`Attendances`): class `AttendanceForm` with
  `formData`, `qrInput`, `showScanner`, `lessons`, `students` and `loading`.
  `ClassifyScan` reads a reader result and its `JSON.parse` outcome as the
  handler does: no result, the throwing case (a parse failure, or `null`), or
  the ids read from the parsed value, which may be missing. The manual
  lookup is `FindStudent`. The submit payload is `SubmitPayload`. The status
  select conversion is `StatusFromSelect`.
- `recitation_form.dfy` (`Recitations`): class `RecitationForm` with
  `formData`, `loading` and `isEditMode`. Seeding applies the per-field `||`
  defaults. Handlers cover the juz-page input coercion and the two 1..20
  multi-selects.
- `exam_form.dfy` (`Exams`): class `ExamForm` with `formData`, `courses` and
  `loading`.

The save call is an input. Each `HandleSubmit` takes `saveFails` (whether
`onSave` rejects). It returns the payload `onSave` received, whether the
submit rejects, and the value of `loading` while the save was awaited. The
current instant (`new Date().toISOString()`) is a `now: string` parameter. The
responses of the list requests are `Fetch` parameters. `handleChange(field,
value)` is modelled by `Apply(state, field, value)` over a per-form `Field`
enumeration and `Value` union. `Fits` says which value shape each field holds.
The TypeScript call sites always pass that shape.

In a few places the behaviour one would expect from these forms differs from
what the code does. The model follows the code:

- The instructor password check compares only when `password` is non-empty.
  A non-empty confirmation with an empty password does not block.
- A parsed QR payload that lacks either id (or has id 0) is ignored without a
  notice, and so is a payload that parses to a non-object. Only a payload that
  does not parse, or parses to `null`, raises the invalid-format notice.
- A failed list request leaves the list as it was. The list is not reset to
  empty.
- The recitation submit sends every field in create mode too, including the
  fields that have no input in that mode.
- A valid scan replaces the whole attendance record, so an `id` that the
  record carried is dropped. A manual match keeps it.
- Instructor seeding defaults only the memorized and passed lists. A record
  without `religious_qualifications` keeps it undefined. The serialiser's
  `forEach` on it then throws, so the submit rejects without calling `onSave`.
  `loading` is still cleared.

## Model

| member | source | states |
|---|---|---|
| `Instructors.Seeded` | src/components/Forms/InstructorForm.tsx:46-55 | the seeded record clears the confirmation, replaces absent memorized/passed lists with [] and copies every other field unchanged (the qualifications list included, absent or not) |
| `Instructors.Apply` | src/components/Forms/InstructorForm.tsx:57 | `{...prev, [field]: value}`: the named field reads back the value, every other field and the `id` are kept |
| `Instructors.SeededIdempotent` | src/components/Forms/InstructorForm.tsx:48-53 | seeding from an already seeded record yields the same record |
| `Instructors.ApplyChangesOnlyField` | src/components/Forms/InstructorForm.tsx:57-59 | the named field reads back the new value, every other field is unchanged, and writing the old value back restores the record |
| `Instructors.PasswordMismatch` | src/components/Forms/InstructorForm.tsx:64 | a confirmation equal to the password never blocks; a non-empty password that differs from it always blocks |
| `Instructors.EmptyPasswordNeverBlocks` | src/components/Forms/InstructorForm.tsx:64 | with an empty password the check never blocks, whatever the confirmation holds |
| `Instructors.ListParts` | src/components/Forms/InstructorForm.tsx:82-84 | one part per list element, named `<field>[]`, at the element's own index |
| `Instructors.AppendEach` | src/components/Forms/InstructorForm.tsx:82-84 | the `forEach(append)` loop leaves the body extended by exactly the list's parts, in list order |
| `Instructors.BuildMultipart` | src/components/Forms/InstructorForm.tsx:71-88 | the body built append by append equals the specified payload |
| `Instructors.PayloadStartsWithScalars` | src/components/Forms/InstructorForm.tsx:71-79 | the body starts with exactly name, email, password, password_confirmation, certificate ('' when absent), birth_date, phone_number, address |
| `Instructors.Payload` | src/components/Forms/InstructorForm.tsx:71-88 | the body has 8 parts plus one per list element plus one for a chosen file, and starts with the eight scalar parts |
| `Instructors.PayloadSize` | src/components/Forms/InstructorForm.tsx:71-88 | the part count is 8 + the three list lengths + 1 if a file was chosen |
| `Instructors.PayloadListElements` | src/components/Forms/InstructorForm.tsx:82-84 | right after the eight scalar parts come the qualification parts, then the memorized parts, then the passed parts, each run exactly its list's parts in list order |
| `Instructors.PayloadRepeatsListParts` | src/components/Forms/InstructorForm.tsx:82-84 | the number of parts named `<field>[]` equals that list's length (e.g. [1,3] gives two `quran_memorized_parts[]` parts) |
| `Instructors.PayloadImageIffChosen` | src/components/Forms/InstructorForm.tsx:86-88 | a file part appears if and only if a file was chosen, and it is then the last part |
| `Instructors.InstructorForm.constructor` | src/components/Forms/InstructorForm.tsx:24-40 | the initial state: all strings empty, all lists [], no file, not loading |
| `Instructors.InstructorForm.Seed` | src/components/Forms/InstructorForm.tsx:46-55 | with a record the state becomes its seeded form; without one the state is untouched |
| `Instructors.InstructorForm.HandleChange` | src/components/Forms/InstructorForm.tsx:57-59 | only the named field of the state changes, to the given value |
| `Instructors.InstructorForm.SetImageFile` | src/components/Forms/InstructorForm.tsx:226 | the chosen file (or none) is stored |
| `Instructors.InstructorForm.HandleSubmit` | src/components/Forms/InstructorForm.tsx:61-94 | a mismatch raises the notice, sends nothing and leaves `loading` untouched; otherwise the payload is sent with `loading` true, an absent list or a failed save makes the submit reject, and `loading` ends false in every case; the state is never changed |
| `Attendances.ClassifyScan` | src/components/Forms/AttendanceForm.tsx:56-61 | a null or empty result returns early; a parse failure or a parse to `null` is the throwing case; a scan is valid exactly when the parse gave an object with both ids truthy (any other value reads its ids as `undefined`) |
| `Attendances.ScannedRecord` | src/components/Forms/AttendanceForm.tsx:62-67 | a valid scan's record is the scanned student and lesson marked present at now, with no id |
| `Attendances.ManualStamp` | src/components/Forms/AttendanceForm.tsx:82-87 | a manual match marks the found student present at now and keeps the lesson and the id |
| `Attendances.ChannelsAgree` | src/components/Forms/AttendanceForm.tsx:56-88 | on a state without id set to the scanned lesson, a manual match of the scanned student gives exactly the scanned record |
| `Attendances.FindStudent` | src/components/Forms/AttendanceForm.tsx:76 | the first loaded student whose id equals the key; none when the key is NaN or no id matches |
| `Attendances.NonNumericInputFindsNoOne` | src/components/Forms/AttendanceForm.tsx:76-80 | typed text without a decimal digit finds no student, whatever the loaded list holds |
| `Attendances.SubmitPayload` | src/components/Forms/AttendanceForm.tsx:94-98 | the payload equals the state except the timestamp, which is now exactly when the status is 1 and null otherwise |
| `Attendances.SubmitPayloadIgnoresStoredTime` | src/components/Forms/AttendanceForm.tsx:94-98 | the stored timestamp never reaches the payload |
| `Attendances.StatusFromSelect` | src/components/Forms/AttendanceForm.tsx:181-185 | '' maps to null and an option value to its integer (1 or 0), whose text is the selected value |
| `Attendances.StatusToSelect` | src/components/Forms/AttendanceForm.tsx:180 | only null shows as the placeholder `''`; a status shows as text that `parseInt` reads back as that status |
| `Attendances.StatusSelectRoundTrip` | src/components/Forms/AttendanceForm.tsx:180-185 | the shown value (`?? ''`) and the select conversion are inverse to each other on '', "1", "0" and null, 1, 0 |
| `Attendances.Apply` | src/components/Forms/AttendanceForm.tsx:53 | `{...prev, [field]: value}`: the named field reads back the value, every other field and the `id` are kept |
| `Attendances.ApplyChangesOnlyField` | src/components/Forms/AttendanceForm.tsx:52-54 | the named field reads back the new value and everything else, id included, is unchanged |
| `Attendances.AttendanceForm.constructor` | src/components/Forms/AttendanceForm.tsx:18-30 | ids 0, status and time null, empty input, scanner hidden, no lists, not loading |
| `Attendances.AttendanceForm.Seed` | src/components/Forms/AttendanceForm.tsx:32-37 | an existing record replaces the state as it is; without one the state is kept |
| `Attendances.AttendanceForm.LoadLessonsAndStudents` | src/components/Forms/AttendanceForm.tsx:39-50 | each list becomes the response's `data` or []; on failure both lists keep their values |
| `Attendances.AttendanceForm.HandleChange` | src/components/Forms/AttendanceForm.tsx:52-54 | only the named field of the state changes, to the given value |
| `Attendances.AttendanceForm.HandleStatusSelect` | src/components/Forms/AttendanceForm.tsx:178-188 | the status becomes the converted select value; nothing else changes |
| `Attendances.AttendanceForm.SetQrInput` | src/components/Forms/AttendanceForm.tsx:131 | the typed id is stored |
| `Attendances.AttendanceForm.ToggleScanner` | src/components/Forms/AttendanceForm.tsx:142 | the scanner visibility flips |
| `Attendances.AttendanceForm.HandleQRData` | src/components/Forms/AttendanceForm.tsx:56-73 | on the `ClassifyScan` reading of the result: null or empty, no effect; unparsable or `null`, the invalid-format notice and no change; both ids truthy, the whole state replaced by the scanned record and the scanner hidden; anything else (an id missing or 0, a non-object) silently no change |
| `Attendances.AttendanceForm.HandleManualQR` | src/components/Forms/AttendanceForm.tsx:75-88 | no student with id `parseInt(qrInput)`: not-found notice, no change; a match: the state becomes `ManualStamp` of that student (present at now, lesson and id kept); the scanner is untouched |
| `Attendances.AttendanceForm.HandleSubmit` | src/components/Forms/AttendanceForm.tsx:90-103 | the derived payload is sent with `loading` true; `loading` ends false even when the save fails; the state is unchanged |
| `Attendances.BothChannelsStampAlike` | src/components/Forms/AttendanceForm.tsx:56-88 | a valid scan and a manual match of the same student and lesson end in the same record, marked present at now |
| `Recitations.SeedState` | src/components/Forms/RecitationForm.tsx:49-76 | without a recitation the state is the default; in every case the selected students are cleared and the page is not 0 |
| `Recitations.SeedWithoutRecitation` | src/components/Forms/RecitationForm.tsx:63-76 | without a recitation every field takes its default |
| `Recitations.SeedWithRecitation` | src/components/Forms/RecitationForm.tsx:50-62 | truthy ids and strings and present lists are kept; absent lists become [] and absent strings ""; students always []; the page is never 0 (0 or missing gives 1); the juz text is empty iff absent, and otherwise is the juz's `toString()` and parses back to it |
| `Recitations.Apply` | src/components/Forms/RecitationForm.tsx:80 | `{...prev, [field]: value}`: the named field reads back the value and every other field is kept |
| `Recitations.ApplyChangesOnlyField` | src/components/Forms/RecitationForm.tsx:79-81 | the named field reads back the new value and every other field is unchanged |
| `Recitations.EditModeShowsMore` | src/components/Forms/RecitationForm.tsx:157-286 | the rendered inputs only (no handler consults them): create mode has an input only for the lesson, edit mode strictly more, and neither for the student fields |
| `Recitations.JuzPageFromInput` | src/components/Forms/RecitationForm.tsx:213 | the stored page is `parseInt(value)`, or 1 when that is NaN or 0; never 0 |
| `Recitations.NumberedOptions` | src/components/Forms/RecitationForm.tsx:106-114 | twenty options; the i-th carries the label key and the number i+1, and its value reads as that same number |
| `Recitations.NumberedOptionsValues` | src/components/Forms/RecitationForm.tsx:106-114 | exactly 20 options whose values read as 1..20 in order, all distinct |
| `Recitations.ChoiceNumber` | src/components/Forms/RecitationForm.tsx:233 | an option value stands for a number in 1..20 whose text is that value |
| `Recitations.SelectionToInts` | src/components/Forms/RecitationForm.tsx:232-234 | the selection becomes its integers, same length and order, each in 1..20 |
| `Recitations.SelectionDisplay` | src/components/Forms/RecitationForm.tsx:231 | one text per stored integer, in order, each reading back as its integer |
| `Recitations.SelectionRoundTrip` | src/components/Forms/RecitationForm.tsx:231-234 | showing the stored integers gives back exactly the selected values |
| `Recitations.RecitationForm.constructor` | src/components/Forms/RecitationForm.tsx:34-47 | default state, not loading, create mode |
| `Recitations.RecitationForm.Seed` | src/components/Forms/RecitationForm.tsx:49-77 | the state becomes the seeded state of the incoming recitation, whatever it was before; edit mode iff a recitation was given |
| `Recitations.RecitationForm.HandleChange` | src/components/Forms/RecitationForm.tsx:79-81 | only the named field of the state changes, to the given value |
| `Recitations.RecitationForm.HandleJuzPageInput` | src/components/Forms/RecitationForm.tsx:212-214 | only the page changes, to the coerced input, never 0 |
| `Recitations.RecitationForm.HandlePagesSelect` | src/components/Forms/RecitationForm.tsx:232-235 | only the recited pages change, to the selection's integers in order |
| `Recitations.RecitationForm.HandleHomeworkSelect` | src/components/Forms/RecitationForm.tsx:242-245 | only the homework changes, to the selection's integers in order |
| `Recitations.RecitationForm.HandleSubmit` | src/components/Forms/RecitationForm.tsx:83-91 | the whole state is sent unchanged in either mode; `loading` is true during the save and false afterwards, even if it fails |
| `Recitations.ReopenGivesSamePayload` | src/components/Forms/RecitationForm.tsx:49-91 | seeding the same recitation twice, with an edit in between, gives identical submitted payloads |
| `Exams.Apply` | src/components/Forms/ExamForm.tsx:51 | `{...prev, [field]: value}`: the named field reads back the value, every other field and the `id` are kept |
| `Exams.ApplyChangesOnlyField` | src/components/Forms/ExamForm.tsx:50-52 | the named field reads back the new value and everything else, id included, is unchanged |
| `Exams.ExamForm.constructor` | src/components/Forms/ExamForm.tsx:23-32 | empty title and date, max_mark, passing_mark and course_id 0, no courses, not loading |
| `Exams.ExamForm.Seed` | src/components/Forms/ExamForm.tsx:34-37 | an existing exam replaces the state wholesale; without one the defaults are kept |
| `Exams.ExamForm.LoadCourses` | src/components/Forms/ExamForm.tsx:41-48 | the list becomes the response's `courses`, or [] when absent; on failure it keeps its value |
| `Exams.ExamForm.HandleChange` | src/components/Forms/ExamForm.tsx:50-52 | only the named field of the state changes, to the given value |
| `Exams.ExamForm.HandleSubmit` | src/components/Forms/ExamForm.tsx:54-62 | the state is sent unchanged; `loading` is true during the save and false afterwards, even if it fails |
| `JsNumbers.ParseIntOfIntToString` | src/components/Forms/AttendanceForm.tsx:76 | `parseInt` reads an integer's text back, ignoring trailing text that does not continue the number |
| `JsNumbers.ParseInt` | src/components/Forms/AttendanceForm.tsx:76 | a number is read only from a string that holds a decimal digit |
| `JsNumbers.IntToString` | src/components/Forms/RecitationForm.tsx:57 | non-empty; a minus sign exactly for negative integers, and decimal digits everywhere else |
| `JsNumbers.ParseIntRoundTrip` | src/components/Forms/RecitationForm.tsx:231-233 | `parseInt(n.toString()) == n` for every integer |
| `JsNumbers.ParseIntNaN` | src/components/Forms/AttendanceForm.tsx:76 | a string with no decimal digit (a name, say, hexadecimal letters included) is NaN |

## Left out

- Rendering: JSX, CSS classes, the `t(...)` translation lookups, and the lesson, student and course option lists built for display. Notices are the enumerations `Notice`, and labels are keys.
- The network: `apiService.getAll` and `Promise.all`. Their outcomes are `Fetch` parameters. The mount effect runs seeding and loading one after the other; in the model these are two methods the caller invokes.
- `JSON.parse` and the camera-driven reader: the parse result is the parameter `parsed` (`None` when it throws), which `ClassifyScan` reads as the handler does.
- Attendances.ParsedObj: scanned ids are numbers or absent. Ids of other JSON types, such as the string `"7"` or the string `"0"` (truthy in the source), which lines 63-64 store as given, are not representable.
- `new Date().toISOString()`: the instant is the parameter `now`. No date arithmetic is done.
- Browser `FormData` and `File`: abstracted to the part sequence and `File(name)`. List elements are strings, because the option constants are not part of this model.
- React scheduling: `useEffect` timing, batched `setState`, and an unmount during an in-flight save.
- The show/hide toggles of the two password fields in the instructor form. They only change how the inputs render.
- Instructors.Instructor: scalar fields are always strings. A `null` or `undefined` scalar from the backend, which `FormData.append` would stringify, is not modelled.
- Attendances.AttendanceForm.HandleChange, Exams.ExamForm.HandleChange, Recitations.RecitationForm.HandleChange: the select and number inputs pass `parseInt(e.target.value)`. The model takes the already converted integer. The NaN that a cleared number input or an empty select value would store (the recitation lesson select included) is not represented.
- Attendances.StatusFromSelect: the options literal of the source also contains stray markup that would not compile. Only its two real options are modelled: 1 present and 0 absent.
- JsNumbers.IntToString: exact for integers. JavaScript's exponent notation for magnitudes of 10^21 and beyond, and the loss of precision past 2^53, are not modelled.
- The navigation sidebar: it holds no state. It only renders buttons and forwards clicks to its parent's callbacks.
