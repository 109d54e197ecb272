/**
  * The exam entry form: default state, wholesale seeding from an existing
  * exam, single-field updates, the course list taken from the response's
  * `courses` key, and a submit that hands the state over unchanged.
  */
module Exams {
  import opened Wrappers

  datatype Exam = Exam(
    id: Option<int>,
    title: string,
    exam_date: string,
    max_mark: int,
    passing_mark: int,
    course_id: int)

  /** The state of a new exam: empty title and date, every number 0. */
  const DefaultExam := Exam(None, "", "", 0, 0, 0)

  datatype Course = Course(id: Option<int>, title: string)

  /** The body of the courses request; the list is under the `courses` key, when present. */
  datatype CoursesResponse = CoursesResponse(courses: Option<seq<Course>>)

  /** The fields `handleChange` may replace. */
  datatype Field = Title | ExamDate | MaxMark | PassingMark | CourseId

  datatype Value = Int(i: int) | Str(s: string)

  predicate Fits(f: Field, v: Value) {
    match f
    case Title | ExamDate => v.Str?
    case MaxMark | PassingMark | CourseId => v.Int?
  }

  function Get(e: Exam, f: Field): (v: Value)
    ensures Fits(f, v)
  {
    match f
    case Title => Str(e.title)
    case ExamDate => Str(e.exam_date)
    case MaxMark => Int(e.max_mark)
    case PassingMark => Int(e.passing_mark)
    case CourseId => Int(e.course_id)
  }

  /** `{ ...prev, [field]: value }`: the named field reads back `v`, every other field is kept. */
  function Apply(e: Exam, f: Field, v: Value): (r: Exam)
    requires Fits(f, v)
    ensures Get(r, f) == v
    ensures forall g :: g != f ==> Get(r, g) == Get(e, g)
    ensures r.id == e.id
  {
    match f
    case Title => e.(title := v.s)
    case ExamDate => e.(exam_date := v.s)
    case MaxMark => e.(max_mark := v.i)
    case PassingMark => e.(passing_mark := v.i)
    case CourseId => e.(course_id := v.i)
  }

  /** `handleChange` replaces exactly the named field and keeps the rest, `id` included. */
  lemma ApplyChangesOnlyField(e: Exam, f: Field, v: Value)
    requires Fits(f, v)
    ensures Get(Apply(e, f, v), f) == v
    ensures forall g :: g != f ==> Get(Apply(e, f, v), g) == Get(e, g)
    ensures Apply(Apply(e, f, v), f, Get(e, f)) == e
  {
  }

  /** The form component: the exam, the loaded courses and the busy flag. */
  class ExamForm {
    var formData: Exam
    var courses: seq<Course>
    var loading: bool

    constructor ()
      ensures formData == DefaultExam && courses == [] && !loading
    {
      formData := DefaultExam;
      courses := [];
      loading := false;
    }

    /** The effect on `initialData`: an existing exam replaces the state as it is. */
    method Seed(initialData: Option<Exam>)
      modifies this`formData
      ensures formData == if initialData.Some? then initialData.value else old(formData)
    {
      if initialData.Some? {
        formData := initialData.value;
      }
    }

    /**
      * `fetchCourses`: the list becomes the response's `courses`, or empty when
      * that key is absent; a failed request leaves the list as it was.
      */
    method LoadCourses(response: Fetch<CoursesResponse>)
      modifies this`courses
      ensures response.Failed? ==> courses == old(courses)
      ensures response.Loaded? && response.body.courses.Some? ==> courses == response.body.courses.value
      ensures response.Loaded? && response.body.courses.None? ==> courses == []
    {
      if response.Loaded? {
        courses := response.body.courses.GetOr([]);
      }
    }

    method HandleChange(f: Field, v: Value)
      requires Fits(f, v)
      modifies this`formData
      ensures formData == Apply(old(formData), f, v)
      ensures Get(formData, f) == v
      ensures forall g :: g != f ==> Get(formData, g) == Get(old(formData), g)
    {
      ApplyChangesOnlyField(formData, f, v);
      formData := Apply(formData, f, v);
    }

    /**
      * `handleSubmit`: the state goes to `onSave` (rejecting when `saveFails`)
      * unchanged; `loading` is set while the save is awaited and cleared afterwards.
      */
    method HandleSubmit(saveFails: bool) returns (sent: Exam, rejected: bool, loadingAtSave: bool)
      modifies this`loading
      ensures formData == old(formData) && courses == old(courses)
      ensures sent == formData
      ensures rejected == saveFails && loadingAtSave && !loading
    {
      loading := true;
      sent := formData;
      loadingAtSave := loading;
      rejected := saveFails;
      loading := false;
    }
  }
}
