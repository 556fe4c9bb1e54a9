/** What the pages that create and edit a vacancy's basic data share: the form fields, the
  * ordered check of the required ones, and the `FormData` they send. */
module VacancyForm {
  import opened Wrappers
  import opened Http
  import UrlCodec

  const TitleMissing := "Заполните название вакансии"
  const BusyMissing := "Выберите занятость"
  const ScheduleMissing := "Выберите график работы"
  const TypeMissing := "Выберите формат работы"

  /** The controlled inputs of the form, each a string ("" when not filled in). */
  datatype Fields = Fields(title: string, incomeLevel: string, busy: string, experience: string,
                           workSchedule: string, workingHours: string, workType: string)

  const Blank := Fields("", "", "", "", "", "", "")

  /** The required fields in the order they are checked, each with the error it reports. */
  function Required(f: Fields): seq<(string, string)> {
    [(f.title, TitleMissing), (f.busy, BusyMissing), (f.workSchedule, ScheduleMissing), (f.workType, TypeMissing)]
  }

  /** The error of the first empty value, `None` when every value is filled in. */
  function FirstEmpty(checks: seq<(string, string)>): (r: Option<string>)
    ensures r.None? <==> forall i :: 0 <= i < |checks| ==> checks[i].0 != ""
    ensures r.Some? ==> exists i :: 0 <= i < |checks| && checks[i].0 == "" && r.value == checks[i].1
                                     && forall j :: 0 <= j < i ==> checks[j].0 != ""
  {
    if checks == [] then None
    else if checks[0].0 == "" then
      Some(checks[0].1)
    else
      var r := FirstEmpty(checks[1..]);
      assert forall i :: 1 <= i < |checks| ==> checks[i] == checks[1..][i - 1];
      if r.Some? then
        var i :| 0 <= i < |checks[1..]| && checks[1..][i].0 == "" && r.value == checks[1..][i].1
                 && forall j :: 0 <= j < i ==> checks[1..][j].0 != "";
        assert checks[i + 1].0 == "" && r.value == checks[i + 1].1;
        r
      else
        r
  }

  predicate Complete(f: Fields) {
    f.title != "" && f.busy != "" && f.workSchedule != "" && f.workType != ""
  }

  /** The checks are passed exactly when the form is complete; a missing title is always the
    * one reported, whatever else is missing. */
  lemma ValidationOrder(f: Fields)
    ensures FirstEmpty(Required(f)).None? <==> Complete(f)
    ensures f.title == "" ==> FirstEmpty(Required(f)) == Some(TitleMissing)
    ensures f.title != "" && f.busy == "" ==> FirstEmpty(Required(f)) == Some(BusyMissing)
    ensures f.title != "" && f.busy != "" && f.workSchedule == "" ==> FirstEmpty(Required(f)) == Some(ScheduleMissing)
    ensures f.title != "" && f.busy != "" && f.workSchedule != "" && f.workType == "" ==> FirstEmpty(Required(f)) == Some(TypeMissing)
  {
    var c := Required(f);
    if f.title != "" {
      assert c[1..] == [c[1], c[2], c[3]];
      if f.busy != "" {
        assert c[1..][1..] == [c[2], c[3]];
        if f.workSchedule != "" {
          assert c[1..][1..][1..] == [c[3]];
        }
      }
    }
  }

  /** `handleSubmit`'s checks, one `if` after another. */
  method Validate(f: Fields) returns (error: Option<string>)
    ensures error == FirstEmpty(Required(f))
  {
    ValidationOrder(f);
    if f.title == "" {
      return Some(TitleMissing);
    }
    if f.busy == "" {
      return Some(BusyMissing);
    }
    if f.workSchedule == "" {
      return Some(ScheduleMissing);
    }
    if f.workType == "" {
      return Some(TypeMissing);
    }
    return None;
  }

  /** Every field as a form entry, in the order the form appends them. */
  function AllPairs(f: Fields): seq<(string, string)> {
    [("title", f.title), ("incomeLevel", f.incomeLevel), ("busy", f.busy), ("experience", f.experience),
     ("workSchedule", f.workSchedule), ("workingHours", f.workingHours), ("workType", f.workType)]
  }

  function Optional(name: string, value: string): seq<(string, string)> {
    if value != "" then [(name, value)] else []
  }

  /** The appended entries: the required fields always, the optional ones when filled in. */
  function FormPairs(f: Fields): seq<(string, string)> {
    [("title", f.title)] + Optional("incomeLevel", f.incomeLevel) + [("busy", f.busy)] + Optional("experience", f.experience)
    + [("workSchedule", f.workSchedule)] + Optional("workingHours", f.workingHours) + [("workType", f.workType)]
  }

  /** The entries as text fields of a `FormData`. */
  function AsFields(pairs: seq<(string, string)>): (r: seq<(string, FormValue)>)
    ensures |r| == |pairs|
    ensures forall i :: 0 <= i < |pairs| ==> r[i] == (pairs[i].0, Field(pairs[i].1))
  {
    if pairs == [] then [] else [(pairs[0].0, Field(pairs[0].1))] + AsFields(pairs[1..])
  }

  /** Building the `FormData` step by step. */
  method BuildForm(f: Fields) returns (pairs: seq<(string, string)>)
    ensures pairs == FormPairs(f)
  {
    pairs := [("title", f.title)];
    if f.incomeLevel != "" {
      pairs := pairs + [("incomeLevel", f.incomeLevel)];
    }
    pairs := pairs + [("busy", f.busy)];
    if f.experience != "" {
      pairs := pairs + [("experience", f.experience)];
    }
    pairs := pairs + [("workSchedule", f.workSchedule)];
    if f.workingHours != "" {
      pairs := pairs + [("workingHours", f.workingHours)];
    }
    pairs := pairs + [("workType", f.workType)];
  }

  /** Once the checks pass, the form is every filled-in field in append order: an optional
    * field is sent exactly when it is not empty, and nothing empty is sent. */
  lemma {:induction false} FormOfComplete(f: Fields)
    requires Complete(f)
    ensures FormPairs(f) == UrlCodec.NonEmptyPairs(AllPairs(f))
    ensures forall p :: p in FormPairs(f) <==> p in AllPairs(f) && p.1 != ""
  {
    var a := AllPairs(f);
    assert a == [a[0]] + [a[1]] + [a[2]] + [a[3]] + [a[4]] + [a[5]] + [a[6]];
    UrlCodec.NonEmptyPairsSnoc([], a[0]);
    UrlCodec.NonEmptyPairsSnoc([a[0]], a[1]);
    UrlCodec.NonEmptyPairsSnoc([a[0]] + [a[1]], a[2]);
    UrlCodec.NonEmptyPairsSnoc([a[0]] + [a[1]] + [a[2]], a[3]);
    UrlCodec.NonEmptyPairsSnoc([a[0]] + [a[1]] + [a[2]] + [a[3]], a[4]);
    UrlCodec.NonEmptyPairsSnoc([a[0]] + [a[1]] + [a[2]] + [a[3]] + [a[4]], a[5]);
    UrlCodec.NonEmptyPairsSnoc([a[0]] + [a[1]] + [a[2]] + [a[3]] + [a[4]] + [a[5]], a[6]);
    UrlCodec.NonEmptyPairsMembers(a);
  }
}
