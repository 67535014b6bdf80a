/**
 * The course-registration form: the state `formData`, `entries` and `error`
 * and the two handlers that change it. `handleChange` writes the input that
 * fired the event and clears the error; `handleSubmit` either reports missing
 * fields or appends the form to the entries and resets it.
 */
module CourseRegistration {

  datatype FormData = FormData(name: string, email: string, course: string)

  /** The `name` attribute of the three inputs that call `handleChange`. */
  datatype Field = Name | Email | Course

  const EmptyForm := FormData("", "", "")

  const MissingFieldsError := "\U{26A0}\U{FE0F} Please fill in all fields before submitting."

  /** The validation guard: no field is the empty string. */
  predicate Complete(f: FormData): (b: bool)
    ensures b <==> forall field :: Get(f, field) != ""
  {
    assert Get(f, Name) == f.name && Get(f, Email) == f.email && Get(f, Course) == f.course;
    f.name != "" && f.email != "" && f.course != ""
  }

  function Get(f: FormData, field: Field): (v: string) {
    match field
    case Name => f.name
    case Email => f.email
    case Course => f.course
  }

  /** `{ ...prev, [name]: value }`. */
  function Set(f: FormData, field: Field, value: string): (r: FormData)
    ensures Get(r, field) == value
    ensures forall other :: other != field ==> Get(r, other) == Get(f, other)
  {
    match field
    case Name => f.(name := value)
    case Email => f.(email := value)
    case Course => f.(course := value)
  }

  class App {
    var formData: FormData
    var entries: seq<FormData>
    var error: string

    /** Every stored entry passed the guard, and an error is only shown while the form is incomplete. */
    ghost predicate Valid()
      reads this
    {
      && (forall i :: 0 <= i < |entries| ==> Complete(entries[i]))
      && (error != "" ==> !Complete(formData))
    }

    constructor ()
      ensures Valid()
      ensures formData == EmptyForm && entries == [] && error == ""
    {
      formData := EmptyForm;
      entries := [];
      error := "";
    }

    method HandleChange(field: Field, value: string)
      requires Valid()
      modifies this
      ensures Valid()
      ensures formData == Set(old(formData), field, value)
      ensures entries == old(entries) && error == ""
    {
      formData := Set(formData, field, value);
      error := "";
    }

    method HandleSubmit()
      requires Valid()
      modifies this
      ensures Valid()
      ensures !Complete(old(formData)) ==>
                error == MissingFieldsError && entries == old(entries) && formData == old(formData)
      ensures Complete(old(formData)) ==>
                entries == old(entries) + [old(formData)] && formData == EmptyForm && error == old(error) == ""
      ensures old(entries) <= entries && |entries| <= |old(entries)| + 1
    {
      if formData.name == "" || formData.email == "" || formData.course == "" {
        error := MissingFieldsError;
        return;
      }
      entries := entries + [formData];
      formData := EmptyForm;
    }
  }

  /** Typing the three fields of `f` and then submitting stores exactly `f` and empties the form. */
  method FillAndSubmit(app: App, f: FormData)
    requires app.Valid() && Complete(f)
    modifies app
    ensures app.Valid()
    ensures app.entries == old(app.entries) + [f] && app.formData == EmptyForm && app.error == ""
  {
    app.HandleChange(Name, f.name);
    app.HandleChange(Email, f.email);
    app.HandleChange(Course, f.course);
    app.HandleSubmit();
  }
}
