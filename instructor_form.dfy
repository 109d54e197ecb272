/**
  * The instructor entry form: a state holder seeded from an optional existing
  * instructor, edited one field at a time, and serialised on submit into a
  * multipart body (one named text part per scalar, one repeated `field[]`
  * part per list element, and the image file only when one was chosen).
  */
module Instructors {
  import opened Wrappers

  /** A file picked in the upload control; only its identity reaches the payload. */
  datatype File = File(name: string)

  /** The value of one multipart entry. */
  datatype Part = Text(text: string) | FileRef(file: File)

  /** A multipart body: named parts in the order they were appended. */
  type Multipart = seq<(string, Part)>

  /** The user-facing notices this form raises. */
  datatype Notice = PasswordsDoNotMatch

  /**
    * The instructor record as the form holds it. A list that the record
    * arrived without is `None` (`undefined`), as is a missing certificate.
    */
  datatype Instructor = Instructor(
    id: Option<int>,
    name: string,
    email: string,
    password: string,
    certificate: Option<string>,
    instructor_img: string,
    birth_date: string,
    phone_number: string,
    address: string,
    quran_memorized_parts: Option<seq<string>>,
    quran_passed_parts: Option<seq<string>>,
    religious_qualifications: Option<seq<string>>,
    password_confirmation: string)

  /** The state a new form starts from. */
  const EmptyInstructor := Instructor(None, "", "", "", Some(""), "", "", "", "",
                                      Some([]), Some([]), Some([]), "")

  /**
    * Seeding from an existing record: every field is copied, the confirmation
    * is cleared, and the memorized and passed lists default to empty. The
    * qualifications list is copied as it is, even when absent.
    */
  function Seeded(init: Instructor): (r: Instructor)
    ensures r.password_confirmation == ""
    ensures r.quran_memorized_parts == Some(init.quran_memorized_parts.GetOr([]))
    ensures r.quran_passed_parts == Some(init.quran_passed_parts.GetOr([]))
    ensures r.religious_qualifications == init.religious_qualifications
    ensures r.(password_confirmation := init.password_confirmation,
               quran_memorized_parts := init.quran_memorized_parts,
               quran_passed_parts := init.quran_passed_parts) == init
  {
    init.(password_confirmation := "",
          quran_memorized_parts := Some(init.quran_memorized_parts.GetOr([])),
          quran_passed_parts := Some(init.quran_passed_parts.GetOr([])))
  }

  /** Seeding an already seeded record changes nothing more. */
  lemma SeededIdempotent(init: Instructor)
    ensures Seeded(Seeded(init)) == Seeded(init)
  {
  }

  /** The fields the inputs of the form edit through `handleChange`. */
  datatype Field =
    | Name | Email | Password | PasswordConfirmation | Certificate
    | BirthDate | PhoneNumber | Address
    | ReligiousQualifications | MemorizedParts | PassedParts

  /** A field's value: a string, a list of strings, or `undefined`. */
  datatype Value = Str(s: string) | Strs(xs: seq<string>) | Missing

  /** Whether `v` has the shape field `f` holds. */
  predicate Fits(f: Field, v: Value) {
    match f
    case Certificate => v.Str? || v.Missing?
    case ReligiousQualifications | MemorizedParts | PassedParts => v.Strs? || v.Missing?
    case _ => v.Str?
  }

  function OptStr(o: Option<string>): Value {
    if o.Some? then Str(o.value) else Missing
  }

  function OptStrs(o: Option<seq<string>>): Value {
    if o.Some? then Strs(o.value) else Missing
  }

  /** The current value of field `f`. */
  function Get(s: Instructor, f: Field): (v: Value)
    ensures Fits(f, v)
  {
    match f
    case Name => Str(s.name)
    case Email => Str(s.email)
    case Password => Str(s.password)
    case PasswordConfirmation => Str(s.password_confirmation)
    case Certificate => OptStr(s.certificate)
    case BirthDate => Str(s.birth_date)
    case PhoneNumber => Str(s.phone_number)
    case Address => Str(s.address)
    case ReligiousQualifications => OptStrs(s.religious_qualifications)
    case MemorizedParts => OptStrs(s.quran_memorized_parts)
    case PassedParts => OptStrs(s.quran_passed_parts)
  }

  /** `{ ...prev, [field]: value }`: the named field reads back `v`, every other field is kept. */
  function Apply(s: Instructor, f: Field, v: Value): (r: Instructor)
    requires Fits(f, v)
    ensures Get(r, f) == v
    ensures forall g :: g != f ==> Get(r, g) == Get(s, g)
    ensures r.id == s.id
  {
    match f
    case Name => s.(name := v.s)
    case Email => s.(email := v.s)
    case Password => s.(password := v.s)
    case PasswordConfirmation => s.(password_confirmation := v.s)
    case Certificate => s.(certificate := if v.Str? then Some(v.s) else None)
    case BirthDate => s.(birth_date := v.s)
    case PhoneNumber => s.(phone_number := v.s)
    case Address => s.(address := v.s)
    case ReligiousQualifications => s.(religious_qualifications := if v.Strs? then Some(v.xs) else None)
    case MemorizedParts => s.(quran_memorized_parts := if v.Strs? then Some(v.xs) else None)
    case PassedParts => s.(quran_passed_parts := if v.Strs? then Some(v.xs) else None)
  }

  /**
    * `handleChange` replaces exactly one field: the field reads back the new
    * value, every other field reads as before, and writing the old value back
    * restores the whole record (so nothing outside the fields changed either).
    */
  lemma ApplyChangesOnlyField(s: Instructor, f: Field, v: Value)
    requires Fits(f, v)
    ensures Get(Apply(s, f, v), f) == v
    ensures forall g :: g != f ==> Get(Apply(s, f, v), g) == Get(s, g)
    ensures Apply(Apply(s, f, v), f, Get(s, f)) == s
  {
  }

  /** The check made before anything is sent: only a non-empty password is compared. */
  function PasswordMismatch(s: Instructor): (blocks: bool)
    ensures s.password == s.password_confirmation ==> !blocks
    ensures s.password != "" && s.password != s.password_confirmation ==> blocks
  {
    s.password != "" && s.password != s.password_confirmation
  }

  /** An empty password never blocks submission, whatever the confirmation holds. */
  lemma EmptyPasswordNeverBlocks(s: Instructor)
    requires s.password == ""
    ensures !PasswordMismatch(s)
  {
  }

  /** The three lists the serialiser iterates over are all defined. */
  predicate ListsPresent(s: Instructor) {
    s.religious_qualifications.Some? && s.quran_memorized_parts.Some? && s.quran_passed_parts.Some?
  }

  /** The eight scalar parts, in the order they are appended. */
  function ScalarParts(s: Instructor): Multipart {
    [("name", Text(s.name)),
     ("email", Text(s.email)),
     ("password", Text(s.password)),
     ("password_confirmation", Text(s.password_confirmation)),
     ("certificate", Text(s.certificate.GetOr(""))),
     ("birth_date", Text(s.birth_date)),
     ("phone_number", Text(s.phone_number)),
     ("address", Text(s.address))]
  }

  /** One `name` part per element of `xs`, in list order. */
  function ListParts(name: string, xs: seq<string>): (r: Multipart)
    ensures |r| == |xs|
    ensures forall k :: 0 <= k < |xs| ==> r[k] == (name, Text(xs[k]))
  {
    seq(|xs|, k requires 0 <= k < |xs| => (name, Text(xs[k])))
  }

  /** The image part, present only when a file was chosen. */
  function ImageParts(img: Option<File>): Multipart {
    if img.Some? then [("instructor_img", FileRef(img.value))] else []
  }

  /** The part names the three lists are sent under, one part per element. */
  const QualificationsPart := "religious_qualifications[]"
  const MemorizedPart := "quran_memorized_parts[]"
  const PassedPart := "quran_passed_parts[]"

  /** The whole body the form hands to `onSave`. */
  function Payload(s: Instructor, img: Option<File>): (r: Multipart)
    requires ListsPresent(s)
    ensures |r| == 8 + |s.religious_qualifications.value|
      + |s.quran_memorized_parts.value| + |s.quran_passed_parts.value|
      + (if img.Some? then 1 else 0)
    ensures r[..8] == ScalarParts(s)
  {
    ScalarParts(s)
    + ListParts(QualificationsPart, s.religious_qualifications.value)
    + ListParts(MemorizedPart, s.quran_memorized_parts.value)
    + ListParts(PassedPart, s.quran_passed_parts.value)
    + ImageParts(img)
  }

  /** `xs.forEach(x => form.append(name, x))`. */
  method AppendEach(form: Multipart, name: string, xs: seq<string>) returns (r: Multipart)
    ensures r == form + ListParts(name, xs)
  {
    r := form;
    var i := 0;
    while i < |xs|
      invariant 0 <= i <= |xs|
      invariant r == form + ListParts(name, xs[..i])
    {
      assert ListParts(name, xs[..i + 1]) == ListParts(name, xs[..i]) + [(name, Text(xs[i]))];
      r := r + [(name, Text(xs[i]))];
      i := i + 1;
    }
    assert xs[..i] == xs;
  }

  /** The serialiser of `handleSubmit`, appending part by part. */
  method BuildMultipart(s: Instructor, img: Option<File>) returns (form: Multipart)
    requires ListsPresent(s)
    ensures form == Payload(s, img)
  {
    form := [];
    form := form + [("name", Text(s.name))];
    form := form + [("email", Text(s.email))];
    form := form + [("password", Text(s.password))];
    form := form + [("password_confirmation", Text(s.password_confirmation))];
    form := form + [("certificate", Text(s.certificate.GetOr("")))];
    form := form + [("birth_date", Text(s.birth_date))];
    form := form + [("phone_number", Text(s.phone_number))];
    form := form + [("address", Text(s.address))];
    assert form == ScalarParts(s);
    form := AppendEach(form, QualificationsPart, s.religious_qualifications.value);
    form := AppendEach(form, MemorizedPart, s.quran_memorized_parts.value);
    form := AppendEach(form, PassedPart, s.quran_passed_parts.value);
    if img.Some? {
      form := form + [("instructor_img", FileRef(img.value))];
    }
  }

  /** The body starts with exactly the eight scalar parts, in this order. */
  lemma PayloadStartsWithScalars(s: Instructor, img: Option<File>)
    requires ListsPresent(s)
    ensures |Payload(s, img)| >= 8
    ensures Payload(s, img)[..8] ==
      [("name", Text(s.name)), ("email", Text(s.email)), ("password", Text(s.password)),
       ("password_confirmation", Text(s.password_confirmation)),
       ("certificate", Text(s.certificate.GetOr(""))), ("birth_date", Text(s.birth_date)),
       ("phone_number", Text(s.phone_number)), ("address", Text(s.address))]
  {
    assert Payload(s, img)[..8] == ScalarParts(s);
  }

  /** The number of parts: eight scalars, one per list element, and one for a chosen file. */
  lemma PayloadSize(s: Instructor, img: Option<File>)
    requires ListsPresent(s)
    ensures |Payload(s, img)| == 8 + |s.religious_qualifications.value|
      + |s.quran_memorized_parts.value| + |s.quran_passed_parts.value|
      + (if img.Some? then 1 else 0)
  {
  }

  /**
    * Each list is sent as one run of parts right after the lists before it:
    * the qualifications from position 8, then the memorized parts, then the
    * passed parts, each run holding its list's elements in order.
    */
  lemma PayloadListElements(s: Instructor, img: Option<File>)
    requires ListsPresent(s)
    ensures var q, m, p := s.religious_qualifications.value, s.quran_memorized_parts.value,
                           s.quran_passed_parts.value;
      |Payload(s, img)| >= 8 + |q| + |m| + |p|
      && Payload(s, img)[8..8 + |q|] == ListParts(QualificationsPart, q)
      && Payload(s, img)[8 + |q|..8 + |q| + |m|] == ListParts(MemorizedPart, m)
      && Payload(s, img)[8 + |q| + |m|..8 + |q| + |m| + |p|] == ListParts(PassedPart, p)
  {
    var q, m, p := s.religious_qualifications.value, s.quran_memorized_parts.value,
                   s.quran_passed_parts.value;
    var a := ScalarParts(s);
    assert |a| == 8;
    Segments(a, ListParts(QualificationsPart, q), ListParts(MemorizedPart, m),
             ListParts(PassedPart, p), ImageParts(img));
  }

  /** Where each middle segment of a five-part concatenation lands. */
  lemma Segments(a: Multipart, b: Multipart, c: Multipart, d: Multipart, e: Multipart)
    ensures var P := a + b + c + d + e;
      P[|a|..|a| + |b|] == b
      && P[|a| + |b|..|a| + |b| + |c|] == c
      && P[|a| + |b| + |c|..|a| + |b| + |c| + |d|] == d
  {
  }

  /** How many parts carry the name `name`. */
  function CountNamed(form: Multipart, name: string): nat {
    if form == [] then 0
    else (if form[0].0 == name then 1 else 0) + CountNamed(form[1..], name)
  }

  lemma {:induction false} CountNamedConcat(a: Multipart, b: Multipart, name: string)
    ensures CountNamed(a + b, name) == CountNamed(a, name) + CountNamed(b, name)
  {
    if a == [] {
      assert a + b == b;
    } else {
      assert (a + b)[1..] == a[1..] + b;
      CountNamedConcat(a[1..], b, name);
    }
  }

  lemma {:induction false} CountNamedAbsent(form: Multipart, name: string)
    requires forall k :: 0 <= k < |form| ==> form[k].0 != name
    ensures CountNamed(form, name) == 0
  {
    if form != [] {
      CountNamedAbsent(form[1..], name);
    }
  }

  lemma {:induction false} CountNamedList(xs: seq<string>, name: string, other: string)
    ensures CountNamed(ListParts(name, xs), name) == |xs|
    ensures other != name ==> CountNamed(ListParts(name, xs), other) == 0
  {
    if xs != [] {
      assert ListParts(name, xs)[1..] == ListParts(name, xs[1..]);
      CountNamedList(xs[1..], name, other);
    }
  }

  /** The names of the repeated list parts. */
  const ListPartNames := [QualificationsPart, MemorizedPart, PassedPart]

  /** A list-part name is counted only in the three list segments of the body. */
  lemma CountNamedInPayload(s: Instructor, img: Option<File>, n: string)
    requires ListsPresent(s) && n in ListPartNames
    ensures CountNamed(Payload(s, img), n) ==
      CountNamed(ListParts(QualificationsPart, s.religious_qualifications.value), n)
      + CountNamed(ListParts(MemorizedPart, s.quran_memorized_parts.value), n)
      + CountNamed(ListParts(PassedPart, s.quran_passed_parts.value), n)
  {
    var a, lq, lm, lp, im := ScalarParts(s),
      ListParts(QualificationsPart, s.religious_qualifications.value),
      ListParts(MemorizedPart, s.quran_memorized_parts.value),
      ListParts(PassedPart, s.quran_passed_parts.value), ImageParts(img);
    assert Payload(s, img) == a + lq + lm + lp + im;
    CountNamedConcat(a + lq + lm + lp, im, n);
    CountNamedConcat(a + lq + lm, lp, n);
    CountNamedConcat(a + lq, lm, n);
    CountNamedConcat(a, lq, n);
    CountNamedAbsent(a, n);
    CountNamedAbsent(im, n);
  }

  /**
    * Lists are sent as repeated parts, not one combined value: the body holds
    * exactly one `quran_memorized_parts[]` part per memorized part (so `[1, 3]`
    * gives two), and likewise for the other two lists.
    */
  lemma PayloadRepeatsListParts(s: Instructor, img: Option<File>)
    requires ListsPresent(s)
    ensures CountNamed(Payload(s, img), QualificationsPart) == |s.religious_qualifications.value|
    ensures CountNamed(Payload(s, img), MemorizedPart) == |s.quran_memorized_parts.value|
    ensures CountNamed(Payload(s, img), PassedPart) == |s.quran_passed_parts.value|
  {
    var q, m, p := s.religious_qualifications.value, s.quran_memorized_parts.value,
                   s.quran_passed_parts.value;
    CountNamedInPayload(s, img, QualificationsPart);
    CountNamedInPayload(s, img, MemorizedPart);
    CountNamedInPayload(s, img, PassedPart);
    CountNamedList(q, QualificationsPart, MemorizedPart);
    CountNamedList(q, QualificationsPart, PassedPart);
    CountNamedList(m, MemorizedPart, QualificationsPart);
    CountNamedList(m, MemorizedPart, PassedPart);
    CountNamedList(p, PassedPart, QualificationsPart);
    CountNamedList(p, PassedPart, MemorizedPart);
  }

  /** A file part appears if and only if a file was chosen, and then it is the last part. */
  lemma PayloadImageIffChosen(s: Instructor, img: Option<File>)
    requires ListsPresent(s)
    ensures (exists k :: 0 <= k < |Payload(s, img)| && Payload(s, img)[k].1.FileRef?) <==> img.Some?
    ensures img.Some? ==> Payload(s, img)[|Payload(s, img)| - 1] == ("instructor_img", FileRef(img.value))
  {
    var P := Payload(s, img);
    var body := ScalarParts(s)
      + ListParts(QualificationsPart, s.religious_qualifications.value)
      + ListParts(MemorizedPart, s.quran_memorized_parts.value)
      + ListParts(PassedPart, s.quran_passed_parts.value);
    assert P == body + ImageParts(img);
    assert forall k :: 0 <= k < |body| ==> body[k].1.Text?;
    if img.Some? {
      assert P[|P| - 1].1.FileRef?;
    } else {
      assert P == body;
    }
  }

  /**
    * The form component: its record, the chosen image file and the busy flag.
    */
  class InstructorForm {
    var formData: Instructor
    var imageFile: Option<File>
    var loading: bool

    constructor ()
      ensures formData == EmptyInstructor && imageFile == None && !loading
    {
      formData := EmptyInstructor;
      imageFile := None;
      loading := false;
    }

    /** The effect run when `initialData` changes; without a record the state is left alone. */
    method Seed(initialData: Option<Instructor>)
      modifies this`formData
      ensures initialData.Some? ==> formData == Seeded(initialData.value)
      ensures initialData.None? ==> formData == old(formData)
    {
      if initialData.Some? {
        formData := Seeded(initialData.value);
      }
    }

    method HandleChange(f: Field, v: Value)
      requires Fits(f, v)
      modifies this`formData
      ensures formData == Apply(old(formData), f, v)
      ensures Get(formData, f) == v
      ensures forall g :: g != f ==> Get(formData, g) == Get(old(formData), g)
    {
      ApplyChangesOnlyField(formData, f, v);
      formData := Apply(formData, f, v);
    }

    /** The upload control's `onChange`. */
    method SetImageFile(file: Option<File>)
      modifies this`imageFile
      ensures imageFile == file
    {
      imageFile := file;
    }

    /**
      * `handleSubmit`. A mismatch (non-empty password that differs from the
      * confirmation) raises the notice and returns before `loading` is touched.
      * Otherwise `loading` is set, the body is built and handed to `onSave`
      * (whose rejection is `saveFails`), and `loading` is cleared in every case.
      * An absent list makes the serialiser throw before `onSave` is reached.
      * Returned: the notice, the body `onSave` received, whether the submit
      * rejects, and the value of `loading` while the save was awaited.
      */
    method HandleSubmit(saveFails: bool)
      returns (notice: Option<Notice>, sent: Option<Multipart>, rejected: bool, loadingAtSave: bool)
      modifies this`loading
      ensures formData == old(formData) && imageFile == old(imageFile)
      ensures PasswordMismatch(formData) ==>
        notice == Some(PasswordsDoNotMatch) && sent == None && !rejected && loading == old(loading)
      ensures !PasswordMismatch(formData) ==>
        notice == None && !loading
        && sent == (if ListsPresent(formData) then Some(Payload(formData, imageFile)) else None)
        && rejected == (!ListsPresent(formData) || saveFails)
      ensures sent.Some? ==> loadingAtSave
    {
      notice, sent, rejected, loadingAtSave := None, None, false, loading;
      if PasswordMismatch(formData) {
        notice := Some(PasswordsDoNotMatch);
        return;
      }
      loading := true;
      if !ListsPresent(formData) {
        rejected := true;
      } else {
        var form := BuildMultipart(formData, imageFile);
        sent := Some(form);
        loadingAtSave := loading;
        rejected := saveFails;
      }
      loading := false;
    }
  }
}
