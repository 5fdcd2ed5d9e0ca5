/**
 * The application component as a state machine: the roster, the seven
 * form fields and the store it persists to. Each handler runs atomically,
 * including the save effect that a change of the roster triggers.
 */
module RosterApp {
  import opened Wrappers
  import opened Students
  import opened Storage

  class App {
    const codec: Codec
    var students: seq<Student>
    var store: Store
    var fullName: string
    var image: string
    var phone: string
    var email: string
    var program: string
    var graduationYear: Year
    var graduated: bool

    /** The save effect has run for the current roster. */
    ghost predicate Valid()
      reads this
    {
      StudentsKey in store && store[StudentsKey] == codec.serialize(students)
    }

    /** The form fields, together. */
    function Form(): Draft
      reads this
    {
      Draft(fullName, image, phone, email, program, graduationYear, graduated)
    }

    /** First render with the roster already loaded: fields at their initial values, then the save effect. */
    constructor Render(codec: Codec, store0: Store, loaded: seq<Student>)
      ensures Valid()
      ensures this.codec == codec && students == loaded
      ensures store == Save(store0, codec, loaded)
      ensures Form() == InitialDraft
    {
      this.codec := codec;
      students := loaded;
      fullName, image, phone, email := "", "", "", "";
      program := NoProgram;
      graduationYear := Number(2023);
      graduated := false;
      store := Save(store0, codec, loaded);
    }

    /**
     * Mounting the component: the initial load, then the first render.
     * A saved value JSON cannot parse makes the load throw, and there is no
     * component (null).
     */
    static method Mount(store0: Store, seed: seq<Student>, codec: Codec, gen: nat -> Uuid) returns (app: App?)
      ensures app == null <==> InitialStudents(store0, seed, codec, gen).Failure?
      ensures app != null ==>
        && fresh(app) && app.Valid()
        && app.codec == codec
        && app.students == InitialStudents(store0, seed, codec, gen).value
        && app.store == Save(store0, codec, app.students)
        && app.Form() == InitialDraft
    {
      var loaded := InitialStudents(store0, seed, codec, gen);
      if loaded.Failure? {
        app := null;
      } else {
        app := new App.Render(codec, store0, loaded.value);
      }
    }

    /**
     * The form's submit handler. A draft that fails the gate changes nothing
     * (the alert is the `false` result). A complete draft becomes a record with
     * the generator's `freshId`, is appended to the roster, the form is reset
     * and the new roster saved.
     */
    method Submit(freshId: Uuid) returns (accepted: bool)
      requires Valid()
      modifies this
      ensures Valid()
      ensures accepted == old(Complete(Form()))
      ensures !accepted ==> students == old(students) && Form() == old(Form()) && store == old(store)
      ensures accepted ==>
        && students == old(students) + [NewStudent(old(Form()), freshId)]
        && Form() == InitialDraft
        && store == Save(old(store), codec, students)
      ensures accepted ==>
        && |students| == |old(students)| + 1
        && students[..|old(students)|] == old(students)
        && students[|old(students)|].id == freshId
        && FormOf(students[|old(students)|]) == old(Form())
        && students[|old(students)|].program != NoProgram
      ensures old(NoSentinel(students)) ==> NoSentinel(students)
    {
      if !Truthy(fullName) || !Truthy(image) || !Truthy(phone) || !Truthy(email) || program == NoProgram {
        accepted := false;
        return;
      }
      accepted := true;
      var newStudent := NewStudent(Form(), freshId);
      AppendKeepsNoSentinel(students, Form(), freshId);
      students := students + [newStudent];
      store := Save(store, codec, students);
      fullName, image, phone, email := "", "", "", "";
      program := NoProgram;
      graduationYear := Number(2023);
      graduated := false;
    }

    method SetFullName(value: string)
      modifies this
      ensures Form() == old(Form()).(fullName := value)
      ensures students == old(students) && store == old(store)
      ensures old(Valid()) ==> Valid()
    {
      fullName := value;
    }

    method SetImage(value: string)
      modifies this
      ensures Form() == old(Form()).(image := value)
      ensures students == old(students) && store == old(store)
      ensures old(Valid()) ==> Valid()
    {
      image := value;
    }

    method SetPhone(value: string)
      modifies this
      ensures Form() == old(Form()).(phone := value)
      ensures students == old(students) && store == old(store)
      ensures old(Valid()) ==> Valid()
    {
      phone := value;
    }

    method SetEmail(value: string)
      modifies this
      ensures Form() == old(Form()).(email := value)
      ensures students == old(students) && store == old(store)
      ensures old(Valid()) ==> Valid()
    {
      email := value;
    }

    method SetProgram(value: string)
      modifies this
      ensures Form() == old(Form()).(program := value)
      ensures students == old(students) && store == old(store)
      ensures old(Valid()) ==> Valid()
    {
      program := value;
    }

    /** The number input hands over its text, which is stored as it is. */
    method SetGraduationYear(raw: string)
      modifies this
      ensures Form() == old(Form()).(graduationYear := Text(raw))
      ensures students == old(students) && store == old(store)
      ensures old(Valid()) ==> Valid()
    {
      graduationYear := Text(raw);
    }

    method SetGraduated(checked: bool)
      modifies this
      ensures Form() == old(Form()).(graduated := checked)
      ensures students == old(students) && store == old(store)
      ensures old(Valid()) ==> Valid()
    {
      graduated := checked;
    }
  }

  /**
   * A session over an empty store: the seed is loaded, the pristine form is
   * rejected, a filled form is appended, and a reload gives the roster back.
   */
  method Session(seed: seq<Student>, codec: Codec, gen: nat -> Uuid, id: Uuid)
    requires Lawful(codec)
  {
    Backfill.BackfillSound(seed, gen, 0);
    var app := App.Mount(map[], seed, codec, gen);
    assert app != null;
    assert |app.students| == |seed|;
    var ok := app.Submit(id);
    assert !ok && |app.students| == |seed|;
    app.SetFullName("Bo");
    app.SetImage("http://x");
    app.SetPhone("555");
    app.SetEmail("b@x.com");
    app.SetProgram("Data");
    app.SetGraduationYear("2024");
    var before := app.store;
    ok := app.Submit(id);
    assert ok && |app.students| == |seed| + 1;
    assert app.students[|seed|].fullName == "Bo";
    assert app.Form() == InitialDraft;
    ReloadAfterSave(before, app.students, seed, codec, gen);
    var again := App.Mount(app.store, seed, codec, gen);
    assert again != null && again.students == app.students;
  }
}
