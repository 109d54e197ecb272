/**
  * The attendance entry form. Two channels identify a student, a scanned QR
  * payload and a typed id looked up among the loaded students; both end in
  * the same stamping (present, at the current instant). On submit the
  * timestamp is derived again from the status.
  */
module Attendances {
  import opened Wrappers
  import opened JsNumbers

  /** The user-facing notices this form raises. */
  datatype Notice = InvalidQrFormat | StudentNotFound

  /** An attendance mark. `student_attendance` is 1 (present), 0 (absent) or null. */
  datatype Attendance = Attendance(
    id: Option<int>,
    lesson_id: int,
    student_id: int,
    student_attendance: Option<int>,
    student_attendance_time: Option<string>)

  const EmptyAttendance := Attendance(None, 0, 0, None, None)

  datatype Lesson = Lesson(id: Option<int>, lesson_title: string)
  datatype Student = Student(id: Option<int>, name: string)

  /** The object a scanned payload parsed to; an id the object lacks is `None`. */
  datatype ParsedObj = ParsedObj(student_id: Option<int>, lesson_id: Option<int>)

  /**
    * What `JSON.parse` of a payload yields: `null`, an object (read through
    * its two ids), or any other value (a number, string, boolean or array).
    */
  datatype JsonValue = JsonNull | JsonObject(obj: ParsedObj) | JsonOther

  /**
    * How `handleQRData` sees a reader result: `None` when it returns early,
    * `Some(None)` when the `try` throws, `Some(Some(p))` for the ids it reads.
    */
  type Scan = Option<Option<ParsedObj>>

  /**
    * The classification of a reader result `data` (null is `None`) whose
    * `JSON.parse` gave `parsed` (`None` when it throws). A null or empty
    * result returns early. Reading the ids of `null` throws, like a parse
    * failure. Any other non-object has no such properties: both read as
    * `undefined`.
    */
  function ClassifyScan(data: Option<string>, parsed: Option<JsonValue>): (scan: Scan)
    ensures scan.None? <==> data.None? || data.value == ""
    ensures scan == Some(None) <==> data.Some? && data.value != "" && (parsed.None? || parsed == Some(JsonNull))
    ensures IsValidScan(scan) <==>
      data.Some? && data.value != "" && parsed.Some? && parsed.value.JsonObject?
      && Truthy(parsed.value.obj.student_id) && Truthy(parsed.value.obj.lesson_id)
  {
    if data.None? || data.value == "" then None
    else
      match parsed
      case None => Some(None)
      case Some(JsonNull) => Some(None)
      case Some(JsonObject(p)) => Some(Some(p))
      case Some(JsonOther) => Some(Some(ParsedObj(None, None)))
  }

  /** JavaScript truthiness of an optional number: defined and not 0. */
  predicate Truthy(o: Option<int>) {
    o.Some? && o.value != 0
  }

  /** A scan that identifies both a student and a lesson. */
  predicate IsValidScan(scan: Scan) {
    scan.Some? && scan.value.Some? && Truthy(scan.value.value.student_id) && Truthy(scan.value.value.lesson_id)
  }

  /** The record a valid scan puts in place of the whole state. */
  function ScannedRecord(p: ParsedObj, now: string): (r: Attendance)
    requires Truthy(p.student_id) && Truthy(p.lesson_id)
    ensures MarkedPresent(r, p.student_id.value, now)
    ensures r.lesson_id == p.lesson_id.value && r.id == None
  {
    Attendance(None, p.lesson_id.value, p.student_id.value, Some(1), Some(now))
  }

  /** The stamping both channels end in. */
  predicate MarkedPresent(a: Attendance, student: int, now: string) {
    a.student_id == student && a.student_attendance == Some(1) && a.student_attendance_time == Some(now)
  }

  /**
    * What a manual match does to the state: the found student is stamped
    * present now; the lesson and the `id` stay as they were.
    */
  function ManualStamp(a: Attendance, st: Student, now: string): (r: Attendance)
    requires st.id.Some?
    ensures MarkedPresent(r, st.id.value, now)
    ensures r.lesson_id == a.lesson_id && r.id == a.id
  {
    a.(student_id := st.id.value, student_attendance := Some(1), student_attendance_time := Some(now))
  }

  /**
    * Both channels stamp alike: on a state without an `id` and set to the
    * scanned lesson, a manual match of the scanned student gives exactly the
    * record the scan would have put in place.
    */
  lemma ChannelsAgree(p: ParsedObj, a: Attendance, st: Student, now: string)
    requires Truthy(p.student_id) && Truthy(p.lesson_id)
    requires st.id == p.student_id
    requires a.id == None && a.lesson_id == p.lesson_id.value
    ensures ManualStamp(a, st, now) == ScannedRecord(p, now)
  {
  }

  /**
    * `students.find(s => s.id === key)`: the first student whose id equals
    * `key`. A NaN key (`None`) matches no one, and neither does a student
    * without an id.
    */
  function FindStudent(students: seq<Student>, key: Option<int>): (r: Option<Student>)
    ensures r.Some? ==> key.Some? && r.value.id == key
    ensures r.Some? ==> exists i :: 0 <= i < |students| && students[i] == r.value
                          && forall j :: 0 <= j < i ==> students[j].id != key
    ensures r.None? <==> key.None? || forall i :: 0 <= i < |students| ==> students[i].id != key
  {
    if key.None? || students == [] then None
    else if students[0].id == key then Some(students[0])
    else
      var r := FindStudent(students[1..], key);
      assert r.Some? ==> exists i :: 0 <= i < |students| && students[i] == r.value
                           && forall j :: 0 <= j < i ==> students[j].id != key by {
        if r.Some? {
          var i :| 0 <= i < |students| - 1 && students[1..][i] == r.value
                   && forall j :: 0 <= j < i ==> students[1..][j].id != key;
          assert students[i + 1] == r.value;
          assert forall j :: 0 <= j < i + 1 ==> students[j].id != key by {
            forall j | 0 <= j < i + 1 ensures students[j].id != key {
              if j > 0 { assert students[j] == students[1..][j - 1]; }
            }
          }
        }
      }
      assert r.None? ==> forall i :: 0 <= i < |students| ==> students[i].id != key by {
        if r.None? {
          forall i | 0 <= i < |students| ensures students[i].id != key {
            if i > 0 { assert students[i] == students[1..][i - 1]; }
          }
        }
      }
      r
  }

  /**
    * Typed text without a decimal digit (a name, say) is NaN for `parseInt`,
    * so the manual lookup finds no student, whatever the loaded list holds.
    */
  lemma NonNumericInputFindsNoOne(students: seq<Student>, typed: string)
    requires forall j :: 0 <= j < |typed| ==> !IsDigit(typed[j], 10)
    ensures FindStudent(students, ParseInt(typed)) == None
  {
    ParseIntNaN(typed);
  }

  /**
    * The record handed to `onSave`: the state as it is, except that the
    * timestamp is now when the status is 1 and null otherwise, whatever was stored.
    */
  function SubmitPayload(a: Attendance, now: string): (r: Attendance)
    ensures r.(student_attendance_time := a.student_attendance_time) == a
    ensures r.student_attendance_time.Some? <==> a.student_attendance == Some(1)
    ensures r.student_attendance_time.Some? ==> r.student_attendance_time.value == now
  {
    a.(student_attendance_time := if a.student_attendance == Some(1) then Some(now) else None)
  }

  /** The stored timestamp never reaches the payload: a stale one is always replaced. */
  lemma SubmitPayloadIgnoresStoredTime(a: Attendance, t: Option<string>, now: string)
    ensures SubmitPayload(a.(student_attendance_time := t), now) == SubmitPayload(a, now)
  {
  }

  /** The choices of the status select: 1 is present, 0 is absent (value, label key). */
  const AttendanceOptions: seq<(int, string)> := [(1, "attendance.present"), (0, "attendance.absent")]

  /** The strings the status select can deliver: its placeholder or an option's value. */
  predicate IsStatusSelectValue(v: string) {
    v == "" || exists i :: 0 <= i < |AttendanceOptions| && v == IntToString(AttendanceOptions[i].0)
  }

  /** The status select's `onChange`: '' becomes null, any other value its integer. */
  function StatusFromSelect(v: string): (r: Option<int>)
    requires IsStatusSelectValue(v)
    ensures r.None? <==> v == ""
    ensures r.Some? ==> (exists i :: 0 <= i < |AttendanceOptions| && r.value == AttendanceOptions[i].0)
                        && IntToString(r.value) == v
  {
    if v == "" then None
    else
      OptionValueParses(v);
      ParseInt(v)
  }

  /** A non-empty select value is an option's number written out, so it reads back as that number. */
  lemma OptionValueParses(v: string)
    requires v != "" && IsStatusSelectValue(v)
    ensures ParseInt(v).Some? && IntToString(ParseInt(v).value) == v
    ensures exists i :: 0 <= i < |AttendanceOptions| && ParseInt(v).value == AttendanceOptions[i].0
  {
    var i :| 0 <= i < |AttendanceOptions| && v == IntToString(AttendanceOptions[i].0);
    ParseIntRoundTrip(AttendanceOptions[i].0);
  }

  /**
    * What the status select shows for a status: `student_attendance ?? ''`.
    * Only null shows as the placeholder, and a number's text reads back as it.
    */
  function StatusToSelect(o: Option<int>): (v: string)
    ensures v == "" <==> o.None?
    ensures o.Some? ==> ParseInt(v) == o
  {
    if o.Some? then
      ParseIntRoundTrip(o.value);
      IntToString(o.value)
    else ""
  }

  /** Selecting and showing are inverse to each other on the select's values and statuses. */
  lemma StatusSelectRoundTrip(v: string, o: Option<int>)
    requires IsStatusSelectValue(v)
    requires o == None || o == Some(0) || o == Some(1)
    ensures StatusToSelect(StatusFromSelect(v)) == v
    ensures IsStatusSelectValue(StatusToSelect(o)) && StatusFromSelect(StatusToSelect(o)) == o
  {
    assert IntToString(AttendanceOptions[0].0) == "1";
    assert IntToString(AttendanceOptions[1].0) == "0";
    if o == Some(1) {
      assert IsStatusSelectValue(StatusToSelect(o)) by { assert StatusToSelect(o) == IntToString(AttendanceOptions[0].0); }
    } else if o == Some(0) {
      assert IsStatusSelectValue(StatusToSelect(o)) by { assert StatusToSelect(o) == IntToString(AttendanceOptions[1].0); }
    }
  }

  /** The fields `handleChange` may replace. */
  datatype Field = LessonId | StudentId | StudentAttendance | StudentAttendanceTime

  /** A field's value: a number, a string, or null. */
  datatype Value = Int(i: int) | Str(s: string) | Null

  predicate Fits(f: Field, v: Value) {
    match f
    case LessonId | StudentId => v.Int?
    case StudentAttendance => v.Int? || v.Null?
    case StudentAttendanceTime => v.Str? || v.Null?
  }

  function Get(a: Attendance, f: Field): (v: Value)
    ensures Fits(f, v)
  {
    match f
    case LessonId => Int(a.lesson_id)
    case StudentId => Int(a.student_id)
    case StudentAttendance => if a.student_attendance.Some? then Int(a.student_attendance.value) else Null
    case StudentAttendanceTime =>
      if a.student_attendance_time.Some? then Str(a.student_attendance_time.value) else Null
  }

  /** `{ ...prev, [field]: value }`: the named field reads back `v`, every other field is kept. */
  function Apply(a: Attendance, f: Field, v: Value): (r: Attendance)
    requires Fits(f, v)
    ensures Get(r, f) == v
    ensures forall g :: g != f ==> Get(r, g) == Get(a, g)
    ensures r.id == a.id
  {
    match f
    case LessonId => a.(lesson_id := v.i)
    case StudentId => a.(student_id := v.i)
    case StudentAttendance => a.(student_attendance := if v.Int? then Some(v.i) else None)
    case StudentAttendanceTime => a.(student_attendance_time := if v.Str? then Some(v.s) else None)
  }

  /** `handleChange` replaces exactly the named field and keeps the rest, `id` included. */
  lemma ApplyChangesOnlyField(a: Attendance, f: Field, v: Value)
    requires Fits(f, v)
    ensures Get(Apply(a, f, v), f) == v
    ensures forall g :: g != f ==> Get(Apply(a, f, v), g) == Get(a, g)
    ensures Apply(Apply(a, f, v), f, Get(a, f)) == a
  {
  }

  /**
    * The form component: the record, the typed id, whether the scanner is
    * shown, the loaded lessons and students, and the busy flag.
    */
  class AttendanceForm {
    var formData: Attendance
    var qrInput: string
    var showScanner: bool
    var lessons: seq<Lesson>
    var students: seq<Student>
    var loading: bool

    constructor ()
      ensures formData == EmptyAttendance && qrInput == "" && !showScanner
      ensures lessons == [] && students == [] && !loading
    {
      formData := EmptyAttendance;
      qrInput := "";
      showScanner := false;
      lessons := [];
      students := [];
      loading := false;
    }

    /** The effect on `initialData`: an existing record replaces the state as it is. */
    method Seed(initialData: Option<Attendance>)
      modifies this`formData
      ensures formData == if initialData.Some? then initialData.value else old(formData)
    {
      if initialData.Some? {
        formData := initialData.value;
      }
    }

    /**
      * The two lists fetched together: each is the response's `data`, or empty
      * when that is absent; if either request fails, both lists stay as they were.
      */
    method LoadLessonsAndStudents(response: Fetch<(Option<seq<Lesson>>, Option<seq<Student>>)>)
      modifies this`lessons, this`students
      ensures response.Failed? ==> lessons == old(lessons) && students == old(students)
      ensures response.Loaded? ==>
        lessons == response.body.0.GetOr([]) && students == response.body.1.GetOr([])
    {
      if response.Loaded? {
        lessons := response.body.0.GetOr([]);
        students := response.body.1.GetOr([]);
      }
    }

    method HandleChange(f: Field, v: Value)
      requires Fits(f, v)
      modifies this`formData
      ensures formData == Apply(old(formData), f, v)
      ensures Get(formData, f) == v
      ensures forall g :: g != f ==> Get(formData, g) == Get(old(formData), g)
    {
      ApplyChangesOnlyField(formData, f, v);
      formData := Apply(formData, f, v);
    }

    /** The status select: the chosen value converted and stored as the status. */
    method HandleStatusSelect(v: string)
      requires IsStatusSelectValue(v)
      modifies this`formData
      ensures formData == old(formData).(student_attendance := StatusFromSelect(v))
    {
      var o := StatusFromSelect(v);
      HandleChange(StudentAttendance, if o.Some? then Int(o.value) else Null);
    }

    /** The manual id input's `onChange`. */
    method SetQrInput(v: string)
      modifies this`qrInput
      ensures qrInput == v
    {
      qrInput := v;
    }

    /** The scan button flips whether the scanner is shown. */
    method ToggleScanner()
      modifies this`showScanner
      ensures showScanner == !old(showScanner)
    {
      showScanner := !showScanner;
    }

    /**
      * `handleQRData`. A null or empty result does nothing. A payload that
      * does not parse, or parses to `null`, raises the invalid-format notice
      * and changes nothing. A parsed value with both ids truthy replaces the
      * whole state with the scanned record (dropping any `id`) and hides the
      * scanner. Anything else (an id missing or 0, a value that is not an
      * object) is ignored without a notice.
      */
    method HandleQRData(data: Option<string>, parsed: Option<JsonValue>, now: string)
      returns (notice: Option<Notice>)
      modifies this`formData, this`showScanner
      ensures var scan := ClassifyScan(data, parsed);
        (IsValidScan(scan) ==>
           formData == ScannedRecord(scan.value.value, now) && !showScanner && notice == None)
        && (!IsValidScan(scan) ==> formData == old(formData) && showScanner == old(showScanner))
        && (notice == Some(InvalidQrFormat) <==> scan == Some(None))
      ensures notice == None || notice == Some(InvalidQrFormat)
    {
      var scan := ClassifyScan(data, parsed);
      notice := None;
      if scan.None? {
        return;
      }
      if scan.value.None? {
        notice := Some(InvalidQrFormat);
        return;
      }
      var p := scan.value.value;
      if Truthy(p.student_id) && Truthy(p.lesson_id) {
        formData := ScannedRecord(p, now);
        showScanner := false;
      }
    }

    /**
      * `handleManualQR`: look up `parseInt(qrInput)` among the loaded students.
      * No match raises the not-found notice and changes nothing. A match
      * stamps the student as present now and keeps the lesson, the `id` and
      * the scanner as they were.
      */
    method HandleManualQR(now: string) returns (notice: Option<Notice>)
      modifies this`formData
      ensures var found := FindStudent(students, ParseInt(qrInput));
        (found.None? ==> notice == Some(StudentNotFound) && formData == old(formData))
        && (found.Some? ==> notice == None && formData == ManualStamp(old(formData), found.value, now))
    {
      var student := FindStudent(students, ParseInt(qrInput));
      if student.None? {
        notice := Some(StudentNotFound);
        return;
      }
      notice := None;
      formData := ManualStamp(formData, student.value, now);
    }

    /**
      * `handleSubmit`: `loading` is set while `onSave` (rejecting when
      * `saveFails`) is awaited with the derived payload, and cleared afterwards.
      */
    method HandleSubmit(now: string, saveFails: bool)
      returns (sent: Attendance, rejected: bool, loadingAtSave: bool)
      modifies this`loading
      ensures formData == old(formData)
      ensures sent == SubmitPayload(formData, now)
      ensures rejected == saveFails && loadingAtSave && !loading
    {
      loading := true;
      sent := SubmitPayload(formData, now);
      loadingAtSave := loading;
      rejected := saveFails;
      loading := false;
    }
  }

  /**
    * Both channels stamp the same way: a valid scan on a fresh form and a
    * manual match of the same student on a fresh form set to the same lesson
    * end in the same record and the same scanner state.
    */
  method BothChannelsStampAlike(payload: string, p: ParsedObj, key: string, roster: seq<Student>, now: string)
    returns (scanned: Attendance, typed: Attendance)
    requires payload != ""
    requires Truthy(p.student_id) && Truthy(p.lesson_id)
    requires FindStudent(roster, ParseInt(key)).Some?
    requires FindStudent(roster, ParseInt(key)).value.id == p.student_id
    ensures scanned == typed
    ensures MarkedPresent(scanned, p.student_id.value, now)
  {
    var found := FindStudent(roster, ParseInt(key));
    var byScan := new AttendanceForm();
    var notice1 := byScan.HandleQRData(Some(payload), Some(JsonObject(p)), now);
    var byHand := new AttendanceForm();
    byHand.LoadLessonsAndStudents(Loaded((Some([]), Some(roster))));
    byHand.HandleChange(LessonId, Int(p.lesson_id.value));
    byHand.SetQrInput(key);
    assert byHand.students == roster && byHand.qrInput == key;
    ChannelsAgree(p, byHand.formData, found.value, now);
    var notice2 := byHand.HandleManualQR(now);
    scanned, typed := byScan.formData, byHand.formData;
  }
}
