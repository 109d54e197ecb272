/**
  * The recitation entry form. Seeding builds the state field by field from an
  * optional recitation, with a default for every falsy field, and sets the
  * create/edit mode; the handlers replace one field at a time; submit hands
  * the whole state to `onSave` in either mode.
  */
module Recitations {
  import opened Wrappers
  import opened JsNumbers

  /** A recitation as it arrives; any field may be missing (`None`). */
  datatype Recitation = Recitation(
    lesson_id: Option<int>,
    student_id: Option<int>,
    recitation_per_page: Option<seq<int>>,
    recitation_evaluation: Option<string>,
    current_juz: Option<int>,
    current_juz_page: Option<int>,
    recitation_notes: Option<string>,
    homework: Option<seq<int>>)

  /** The state the form edits and submits. */
  datatype RecitationState = RecitationState(
    lesson_id: int,
    students: seq<int>,
    student_id: int,
    recitation_per_page: seq<int>,
    recitation_evaluation: string,
    current_juz: string,
    current_juz_page: int,
    recitation_notes: string,
    homework: seq<int>)

  /** The state of a new recitation. */
  const DefaultState := RecitationState(0, [], 0, [], "", "", 1, "", [])

  /** `o || d` for a number: the value when it is defined and not 0. */
  function OrNum(o: Option<int>, d: int): int {
    if o.Some? && o.value != 0 then o.value else d
  }

  /** `o || d` for a string: the value when it is defined and not empty. */
  function OrStr(o: Option<string>, d: string): string {
    if o.Some? && o.value != "" then o.value else d
  }

  /** The state seeding puts in place; it depends on the incoming recitation only. */
  function SeedState(rec: Option<Recitation>): (r: RecitationState)
    ensures rec.None? ==> r == DefaultState
    ensures r.students == [] && r.current_juz_page != 0
  {
    if rec.None? then DefaultState
    else
      var r := rec.value;
      RecitationState(
        OrNum(r.lesson_id, 0),
        [],
        OrNum(r.student_id, 0),
        r.recitation_per_page.GetOr([]),
        OrStr(r.recitation_evaluation, ""),
        if r.current_juz.Some? then IntToString(r.current_juz.value) else "",
        OrNum(r.current_juz_page, 1),
        OrStr(r.recitation_notes, ""),
        r.homework.GetOr([]))
  }

  /** Without a recitation every field takes its default. */
  lemma SeedWithoutRecitation()
    ensures SeedState(None) == RecitationState(0, [], 0, [], "", "", 1, "", [])
  {
  }

  /**
    * With a recitation: defined non-zero ids and non-empty strings are kept,
    * lists are kept when present, the selected students are always cleared,
    * the page is never 0 (a missing or 0 page becomes 1), and the juz is
    * stored as text that reads back as the same number (0 included).
    */
  lemma SeedWithRecitation(r: Recitation)
    ensures var s := SeedState(Some(r));
      s.students == []
      && (s.lesson_id == 0 || Some(s.lesson_id) == r.lesson_id)
      && (s.student_id == 0 || Some(s.student_id) == r.student_id)
      && (r.lesson_id.Some? && r.lesson_id.value != 0 ==> s.lesson_id == r.lesson_id.value)
      && (r.student_id.Some? && r.student_id.value != 0 ==> s.student_id == r.student_id.value)
      && s.current_juz_page != 0
      && (s.current_juz_page == 1 || Some(s.current_juz_page) == r.current_juz_page)
      && (r.current_juz_page.Some? && r.current_juz_page.value != 0 ==> s.current_juz_page == r.current_juz_page.value)
      && (s.current_juz == "" <==> r.current_juz.None?)
      && (r.current_juz.Some? ==> ParseInt(s.current_juz) == r.current_juz)
      && (r.recitation_per_page.Some? ==> s.recitation_per_page == r.recitation_per_page.value)
      && (r.homework.Some? ==> s.homework == r.homework.value)
      && (r.recitation_evaluation.Some? ==> s.recitation_evaluation == r.recitation_evaluation.value)
      && (r.recitation_notes.Some? ==> s.recitation_notes == r.recitation_notes.value)
      && (r.recitation_per_page.None? ==> s.recitation_per_page == [])
      && (r.homework.None? ==> s.homework == [])
      && (r.recitation_evaluation.None? ==> s.recitation_evaluation == "")
      && (r.recitation_notes.None? ==> s.recitation_notes == "")
      && (r.current_juz.Some? ==> s.current_juz == IntToString(r.current_juz.value))
  {
    if r.current_juz.Some? {
      ParseIntRoundTrip(r.current_juz.value);
    }
  }

  /** The fields `handleChange` may replace. */
  datatype Field =
    | LessonId | Students | StudentId | RecitationPerPage | RecitationEvaluation
    | CurrentJuz | CurrentJuzPage | RecitationNotes | Homework

  /** A field's value: a number, a list of numbers, or a string. */
  datatype Value = Int(i: int) | Ints(xs: seq<int>) | Str(s: string)

  predicate Fits(f: Field, v: Value) {
    match f
    case LessonId | StudentId | CurrentJuzPage => v.Int?
    case Students | RecitationPerPage | Homework => v.Ints?
    case RecitationEvaluation | CurrentJuz | RecitationNotes => v.Str?
  }

  function Get(s: RecitationState, f: Field): (v: Value)
    ensures Fits(f, v)
  {
    match f
    case LessonId => Int(s.lesson_id)
    case Students => Ints(s.students)
    case StudentId => Int(s.student_id)
    case RecitationPerPage => Ints(s.recitation_per_page)
    case RecitationEvaluation => Str(s.recitation_evaluation)
    case CurrentJuz => Str(s.current_juz)
    case CurrentJuzPage => Int(s.current_juz_page)
    case RecitationNotes => Str(s.recitation_notes)
    case Homework => Ints(s.homework)
  }

  /** `{ ...prev, [field]: value }`: the named field reads back `v`, every other field is kept. */
  function Apply(s: RecitationState, f: Field, v: Value): (r: RecitationState)
    requires Fits(f, v)
    ensures Get(r, f) == v
    ensures forall g :: g != f ==> Get(r, g) == Get(s, g)
  {
    match f
    case LessonId => s.(lesson_id := v.i)
    case Students => s.(students := v.xs)
    case StudentId => s.(student_id := v.i)
    case RecitationPerPage => s.(recitation_per_page := v.xs)
    case RecitationEvaluation => s.(recitation_evaluation := v.s)
    case CurrentJuz => s.(current_juz := v.s)
    case CurrentJuzPage => s.(current_juz_page := v.i)
    case RecitationNotes => s.(recitation_notes := v.s)
    case Homework => s.(homework := v.xs)
  }

  /** `handleChange` replaces exactly the named field and keeps the rest. */
  lemma ApplyChangesOnlyField(s: RecitationState, f: Field, v: Value)
    requires Fits(f, v)
    ensures Get(Apply(s, f, v), f) == v
    ensures forall g :: g != f ==> Get(Apply(s, f, v), g) == Get(s, g)
    ensures Apply(Apply(s, f, v), f, Get(s, f)) == s
  {
  }

  /** The fields that have an input: only the lesson in create mode, all progress fields in edit mode. */
  function InputFields(isEditMode: bool): set<Field> {
    if isEditMode
    then {LessonId, CurrentJuzPage, CurrentJuz, RecitationPerPage, Homework, RecitationEvaluation, RecitationNotes}
    else {LessonId}
  }

  /** Edit mode shows strictly more than create mode, and neither mode shows the student fields. */
  lemma EditModeShowsMore()
    ensures InputFields(false) < InputFields(true)
    ensures forall m :: StudentId !in InputFields(m) && Students !in InputFields(m)
  {
  }

  /** The juz-page input: `parseInt(value) || 1`, so NaN and 0 both become 1. */
  function JuzPageFromInput(v: string): (page: int)
    ensures page != 0
    ensures ParseInt(v) == None || ParseInt(v) == Some(0) ==> page == 1
    ensures ParseInt(v).Some? && ParseInt(v).value != 0 ==> page == ParseInt(v).value
  {
    var n := ParseInt(v);
    if n.Some? && n.value != 0 then n.value else 1
  }

  /** An option of a choice control: the value it delivers and its label (a key and a number). */
  datatype SelectOption = SelectOption(value: string, labelKey: string, labelNumber: int)

  /** `Array.from({ length: 20 }, (_, i) => ({ value: String(i + 1), label: ... }))`. */
  function NumberedOptions(labelKey: string): (r: seq<SelectOption>)
    ensures |r| == 20
    ensures forall i :: 0 <= i < 20 ==>
      r[i].labelKey == labelKey && r[i].labelNumber == i + 1 && ParseInt(r[i].value) == Some(r[i].labelNumber)
  {
    ChoicesRoundTrip();
    seq(20, i requires 0 <= i < 20 => SelectOption(IntToString(i + 1), labelKey, i + 1))
  }

  /** The texts of 1..20 read back as their numbers. */
  lemma ChoicesRoundTrip()
    ensures forall k :: 1 <= k <= 20 ==> ParseInt(IntToString(k)) == Some(k)
  {
    forall k | 1 <= k <= 20 ensures ParseInt(IntToString(k)) == Some(k) {
      ParseIntRoundTrip(k);
    }
  }

  const PageOptions := NumberedOptions("recitation.page")
  const HomeworkOptions := NumberedOptions("recitation.assignment")

  /** The strings a 1..20 choice control delivers. */
  predicate IsChoiceValue(v: string) {
    exists k :: 1 <= k <= 20 && v == IntToString(k)
  }

  /** There are exactly twenty options, their values read as 1..20 in order, and no two coincide. */
  lemma NumberedOptionsValues(labelKey: string)
    ensures |NumberedOptions(labelKey)| == 20
    ensures forall i :: 0 <= i < 20 ==>
      ParseInt(NumberedOptions(labelKey)[i].value) == Some(i + 1)
      && IsChoiceValue(NumberedOptions(labelKey)[i].value)
    ensures forall i, j :: 0 <= i < j < 20 ==> NumberedOptions(labelKey)[i].value != NumberedOptions(labelKey)[j].value
  {
    var opts := NumberedOptions(labelKey);
    forall i | 0 <= i < 20
      ensures ParseInt(opts[i].value) == Some(i + 1) && IsChoiceValue(opts[i].value)
    {
      ParseIntRoundTrip(i + 1);
    }
  }

  /** A choice value reads back as its number. */
  lemma ChoiceValueParses(v: string)
    requires IsChoiceValue(v)
    ensures ParseInt(v).Some? && 1 <= ParseInt(v).value <= 20 && IntToString(ParseInt(v).value) == v
  {
    var k :| 1 <= k <= 20 && v == IntToString(k);
    ParseIntRoundTrip(k);
  }

  /** The number a choice value stands for. */
  function ChoiceNumber(v: string): (n: int)
    requires IsChoiceValue(v)
    ensures 1 <= n <= 20 && IntToString(n) == v
  {
    ChoiceValueParses(v);
    ParseInt(v).value
  }

  /** A multi-select's `onChange`: `selected.map(p => parseInt(p))`, in the same order. */
  function SelectionToInts(selected: seq<string>): (r: seq<int>)
    requires forall j :: 0 <= j < |selected| ==> IsChoiceValue(selected[j])
    ensures |r| == |selected|
    ensures forall j :: 0 <= j < |r| ==> 1 <= r[j] <= 20 && ParseInt(selected[j]) == Some(r[j])
  {
    seq(|selected|, j requires 0 <= j < |selected| => ChoiceNumber(selected[j]))
  }

  /** What a multi-select shows for a list: `xs.map(x => x.toString())`. */
  function SelectionDisplay(xs: seq<int>): (r: seq<string>)
    ensures |r| == |xs|
    ensures forall j :: 0 <= j < |r| ==> ParseInt(r[j]) == Some(xs[j])
  {
    DisplayRoundTrip(xs);
    seq(|xs|, j requires 0 <= j < |xs| => IntToString(xs[j]))
  }

  /** Every element's text reads back as that element. */
  lemma DisplayRoundTrip(xs: seq<int>)
    ensures forall j :: 0 <= j < |xs| ==> ParseInt(IntToString(xs[j])) == Some(xs[j])
  {
    forall j | 0 <= j < |xs| ensures ParseInt(IntToString(xs[j])) == Some(xs[j]) {
      ParseIntRoundTrip(xs[j]);
    }
  }

  /** Choosing values and showing the stored list give back the same values, in order. */
  lemma SelectionRoundTrip(selected: seq<string>)
    requires forall j :: 0 <= j < |selected| ==> IsChoiceValue(selected[j])
    ensures SelectionDisplay(SelectionToInts(selected)) == selected
  {
    var r := SelectionToInts(selected);
    forall j | 0 <= j < |selected| ensures SelectionDisplay(r)[j] == selected[j] {
      ChoiceValueParses(selected[j]);
    }
  }

  /** The form component: the state, the busy flag and the create/edit mode. */
  class RecitationForm {
    var formData: RecitationState
    var loading: bool
    var isEditMode: bool

    constructor ()
      ensures formData == DefaultState && !loading && !isEditMode
    {
      formData := DefaultState;
      loading := false;
      isEditMode := false;
    }

    /** The effect on `recitation`: state from the record (or defaults) and the mode. */
    method Seed(recitation: Option<Recitation>)
      modifies this`formData, this`isEditMode
      ensures formData == SeedState(recitation)
      ensures isEditMode == recitation.Some?
    {
      if recitation.Some? {
        formData := SeedState(recitation);
        isEditMode := true;
      } else {
        isEditMode := false;
        formData := DefaultState;
      }
    }

    method HandleChange(f: Field, v: Value)
      requires Fits(f, v)
      modifies this`formData
      ensures formData == Apply(old(formData), f, v)
      ensures Get(formData, f) == v
      ensures forall g :: g != f ==> Get(formData, g) == Get(old(formData), g)
    {
      ApplyChangesOnlyField(formData, f, v);
      formData := Apply(formData, f, v);
    }

    /** The juz-page input stores its converted value, never 0. */
    method HandleJuzPageInput(v: string)
      modifies this`formData
      ensures formData == old(formData).(current_juz_page := JuzPageFromInput(v))
      ensures formData.current_juz_page != 0
    {
      HandleChange(CurrentJuzPage, Int(JuzPageFromInput(v)));
    }

    /** The pages multi-select stores the chosen numbers in order. */
    method HandlePagesSelect(selected: seq<string>)
      requires forall j :: 0 <= j < |selected| ==> IsChoiceValue(selected[j])
      modifies this`formData
      ensures formData == old(formData).(recitation_per_page := SelectionToInts(selected))
    {
      HandleChange(RecitationPerPage, Ints(SelectionToInts(selected)));
    }

    /** The homework multi-select stores the chosen numbers in order. */
    method HandleHomeworkSelect(selected: seq<string>)
      requires forall j :: 0 <= j < |selected| ==> IsChoiceValue(selected[j])
      modifies this`formData
      ensures formData == old(formData).(homework := SelectionToInts(selected))
    {
      HandleChange(Homework, Ints(SelectionToInts(selected)));
    }

    /**
      * `handleSubmit`: the whole state goes to `onSave` (rejecting when
      * `saveFails`) in create and edit mode alike; `loading` is set while the
      * save is awaited and cleared afterwards.
      */
    method HandleSubmit(saveFails: bool) returns (sent: RecitationState, rejected: bool, loadingAtSave: bool)
      modifies this`loading
      ensures formData == old(formData) && isEditMode == old(isEditMode)
      ensures sent == formData
      ensures rejected == saveFails && loadingAtSave && !loading
    {
      loading := true;
      sent := formData;
      loadingAtSave := loading;
      rejected := saveFails;
      loading := false;
    }
  }

  /**
    * Re-opening the same recitation gives the same state and the same
    * payload, whatever was edited in between.
    */
  method ReopenGivesSamePayload(rec: Option<Recitation>, f: Field, v: Value)
    returns (first: RecitationState, second: RecitationState)
    requires Fits(f, v)
    ensures first == second == SeedState(rec)
  {
    var form := new RecitationForm();
    form.Seed(rec);
    var sent1, _, _ := form.HandleSubmit(false);
    first := sent1;
    form.HandleChange(f, v);
    form.Seed(rec);
    var sent2, _, _ := form.HandleSubmit(true);
    second := sent2;
  }
}
