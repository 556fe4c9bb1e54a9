/** The first step of the employee wizard (and the same form from the profile): the personal
  * data, sent as a form through the request client. */
module EmployeeBasic {
  import opened Wrappers
  import opened Http
  import opened Web
  import opened Onboarding

  const FieldsMissing := "Заполните обязательные поля"
  const SaveFailed := "Ошибка сохранения"
  const NextStep := "/profile/employee/categories"

  datatype Fields = Fields(firstName: string, lastName: string, fatherName: string, birthDate: string,
                           gender: string, city: string, experience: string)

  datatype BasicPage = BasicPage(fields: Fields, error: string)

  /** The four required fields; patronymic, city and experience may stay empty. */
  predicate Complete(f: Fields)
    ensures Complete(f) <==> forall i :: 0 <= i < |Entries(f)| && Entries(f)[i].0 in Required ==> Entries(f)[i].1 != Field("")
  {
    var e := Entries(f);
    assert e[0].0 in Required && e[1].0 in Required && e[3].0 in Required && e[4].0 in Required;
    assert e[2].0 !in Required && e[5].0 !in Required && e[6].0 !in Required;
    f.firstName != "" && f.lastName != "" && f.gender != "" && f.birthDate != ""
  }

  const Required := {"firstName", "lastName", "birthDate", "gender"}

  /** All seven fields, filled in or not, in the order they are appended. */
  function Entries(f: Fields): seq<(string, FormValue)> {
    [("firstName", Field(f.firstName)), ("lastName", Field(f.lastName)), ("fatherName", Field(f.fatherName)),
     ("birthDate", Field(f.birthDate)), ("gender", Field(f.gender)), ("city", Field(f.city)), ("experience", Field(f.experience))]
  }

  function SaveCall(f: Fields): Call {
    Call("/api/profile/employee", Options("POST", map[], Form(Entries(f))))
  }

  /** Unlike the vacancy forms, an empty optional field is still sent, as an empty value. */
  lemma EmptyOptionalSent(f: Fields)
    requires Complete(f) && f.city == ""
    ensures ("city", Field("")) in SaveCall(f).options.body.entries
  {
    assert Entries(f)[5] == ("city", Field(""));
  }

  /** `submit`: a missing required field stops it; a refusal shows the reply's text; a thrown
    * error the connection error; a saved step goes on (inside the wizard) or back to the
    * profile. */
  method Submit(search: string, page: BasicPage, answer: Answer) returns (next: BasicPage, calls: seq<Call>, nav: Nav)
    ensures next.fields == page.fields
    ensures !Complete(page.fields) ==> calls == [] && nav == Stay && next.error == FieldsMissing
    ensures Complete(page.fields) ==>
              && calls == [SaveCall(page.fields)]
              && (answer.Failure? ==> next.error == ConnectionError && nav == Stay)
              && (answer.Success? && !answer.value.Ok() ==> next.error == OrElse(answer.value.text, SaveFailed) && nav == Stay)
              && (answer.Success? && answer.value.Ok() ==> next.error == "" && nav == GoTo(After(search, NextStep)))
  {
    next := page.(error := "");
    calls := [];
    nav := Stay;
    var f := page.fields;
    if f.firstName == "" || f.lastName == "" || f.gender == "" || f.birthDate == "" {
      next := next.(error := FieldsMissing);
      return;
    }
    var fd := [("firstName", Field(f.firstName))];
    fd := fd + [("lastName", Field(f.lastName))];
    fd := fd + [("fatherName", Field(f.fatherName))];
    fd := fd + [("birthDate", Field(f.birthDate))];
    fd := fd + [("gender", Field(f.gender))];
    fd := fd + [("city", Field(f.city))];
    fd := fd + [("experience", Field(f.experience))];
    assert fd == Entries(f);
    calls := [Call("/api/profile/employee", Options("POST", map[], Form(fd)))];
    if answer.Failure? {
      next := next.(error := ConnectionError);
      return;
    }
    if !answer.value.Ok() {
      next := next.(error := OrElse(answer.value.text, SaveFailed));
      return;
    }
    if RegisterFlow(search) {
      nav := GoTo(NextStep + "?" + Flag);
    } else {
      nav := GoTo(ProfilePath);
    }
  }
}
