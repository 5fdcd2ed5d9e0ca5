/**
 * The student record, the form draft it is built from, and the gate that
 * decides whether a draft may become a record.
 */
module Students {

  /** What the uuid v4 generator returns: a 36-character identifier, never empty. */
  type Uuid = s: string | |s| == 36 witness "00000000-0000-4000-8000-000000000000"

  /**
   * The graduation year as the application holds it: the number the form
   * starts with (and the seed may carry), or the raw text of the number input
   * once the user has edited it, which is stored as read, never converted.
   */
  datatype Year = Number(n: int) | Text(raw: string)

  /**
   * A roster record. `id` is the empty string when the record's id is
   * falsy (missing, null or empty), which seed or loaded records can be.
   */
  datatype Student = Student(
    id: string,
    fullName: string,
    image: string,
    phone: string,
    email: string,
    program: string,
    graduationYear: Year,
    graduated: bool)

  /** The seven form fields, as they stand at some moment. */
  datatype Draft = Draft(
    fullName: string,
    image: string,
    phone: string,
    email: string,
    program: string,
    graduationYear: Year,
    graduated: bool)

  /** The program select's placeholder option: no program chosen. */
  const NoProgram: string := "-- None --"

  /** The values the form fields start with and are reset to after a submission. */
  const InitialDraft: Draft := Draft("", "", "", "", NoProgram, Number(2023), false)

  /** JavaScript truthiness of a string: only the empty string is falsy. */
  predicate Truthy(s: string) {
    s != ""
  }

  /** The submission gate: every required text field filled and a program chosen. */
  predicate Complete(d: Draft) {
    Truthy(d.fullName) && Truthy(d.image) && Truthy(d.phone) && Truthy(d.email) && d.program != NoProgram
  }

  /** The form fields a record was built from (everything but its id). */
  function FormOf(s: Student): Draft {
    Draft(s.fullName, s.image, s.phone, s.email, s.program, s.graduationYear, s.graduated)
  }

  /** The record a complete draft becomes, under the id the generator returned. */
  function NewStudent(d: Draft, id: Uuid): (s: Student)
    requires Complete(d)
    ensures s.id == id && FormOf(s) == d
    ensures Truthy(s.id) && s.program != NoProgram
  {
    Student(id, d.fullName, d.image, d.phone, d.email, d.program, d.graduationYear, d.graduated)
  }

  /** No record of the roster carries the placeholder program. */
  predicate NoSentinel(roster: seq<Student>) {
    forall i :: 0 <= i < |roster| ==> roster[i].program != NoProgram
  }

  /** Submitting the form as it starts (or as it is after a reset) is always rejected. */
  lemma InitialDraftRejected()
    ensures !Complete(InitialDraft)
  {
  }

  /**
   * Appending a record built by the gate neither introduces the placeholder
   * program nor hides one already there.
   */
  lemma AppendKeepsNoSentinel(roster: seq<Student>, d: Draft, id: Uuid)
    requires Complete(d)
    ensures NoSentinel(roster + [NewStudent(d, id)]) <==> NoSentinel(roster)
  {
    var r := roster + [NewStudent(d, id)];
    if NoSentinel(r) {
      forall i | 0 <= i < |roster| ensures roster[i].program != NoProgram {
        assert r[i] == roster[i];
      }
    }
  }
}
