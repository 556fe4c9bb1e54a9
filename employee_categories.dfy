/** The wizard's second step: the work categories the employee picks, sent as a JSON list. */
module EmployeeCategories {
  import opened Wrappers
  import opened Json
  import opened Http
  import opened Web
  import opened Onboarding
  import Lists

  const NoneSelected := "Выберите хотя бы одну категорию"
  const SaveFailed := "Ошибка сохранения категорий"
  const NextStep := "/profile/employee/contacts"

  datatype CategoriesPage = CategoriesPage(selected: seq<string>, error: string)

  /** `toggle`: a picked category is dropped, any other is added at the end. */
  function Toggle(page: CategoriesPage, cat: string): (r: CategoriesPage)
    ensures cat in r.selected <==> cat !in page.selected
    ensures forall c :: c != cat ==> (c in r.selected <==> c in page.selected)
    ensures cat !in page.selected ==> r.selected == page.selected + [cat]
    ensures r.error == page.error
  {
    page.(selected := Lists.Toggle(page.selected, cat))
  }

  /** Picking a category and then unpicking it gives back the selection. */
  lemma ToggleUndone(page: CategoriesPage, cat: string)
    requires cat !in page.selected
    ensures Toggle(Toggle(page, cat), cat) == page
  {
    Lists.ToggleTwiceAbsent(page.selected, cat);
  }

  function SaveCall(selected: seq<string>): Call {
    Call("/api/profile/employee/set-work-categories",
         Options("POST", map["Content-Type" := "application/json"], JsonBody(JObj([("workCategories", JArr(Strs(selected)))]))))
  }

  /** `save`: nothing is sent for an empty selection. The body is the selection in the order
    * it was picked. The old error is not cleared first, so it stays after a save. */
  method Save(search: string, page: CategoriesPage, answer: Answer) returns (next: CategoriesPage, calls: seq<Call>, nav: Nav)
    ensures next.selected == page.selected
    ensures page.selected == [] ==> calls == [] && nav == Stay && next.error == NoneSelected
    ensures page.selected != [] ==>
              && calls == [SaveCall(page.selected)]
              && (answer.Failure? ==> next.error == ConnectionError && nav == Stay)
              && (answer.Success? && !answer.value.Ok() ==> next.error == OrElse(answer.value.text, SaveFailed) && nav == Stay)
              && (answer.Success? && answer.value.Ok() ==> next.error == page.error && nav == GoTo(After(search, NextStep)))
  {
    next := page;
    calls := [];
    nav := Stay;
    if |page.selected| == 0 {
      next := next.(error := NoneSelected);
      return;
    }
    calls := [SaveCall(page.selected)];
    if answer.Failure? {
      next := next.(error := ConnectionError);
      return;
    }
    var res := answer.value;
    if !res.Ok() {
      next := next.(error := OrElse(res.text, SaveFailed));
      return;
    }
    nav := GoTo(After(search, NextStep));
  }

  /** The body lists exactly the selection, in order. */
  lemma BodyIsSelection(selected: seq<string>)
    ensures var body := SaveCall(selected).options.body.value;
            && Get(body, "workCategories") == Some(JArr(Strs(selected)))
            && |Strs(selected)| == |selected|
  {
  }
}
