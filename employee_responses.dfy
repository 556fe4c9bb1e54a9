/** The employee's own responses: their load and how a status is shown. */
module EmployeeResponses {
  import opened Wrappers
  import opened Json
  import opened Http
  import opened Web
  import Text

  /** The one error the page shows: the thrown message is not used. */
  const LoadFailed := "Не удалось загрузить отклики"

  const PendingClass := "response-status--pending"
  const ApprovedClass := "response-status--approved"
  const RejectedClass := "response-status--rejected"

  datatype Responses = Responses(responses: seq<Json>, loading: bool, error: string)

  const Initial := Responses([], true, "")

  const ResponsesCall := Call("/api/responses/employee", Options("GET", map[], NoBody))

  /** `load`: no request without a login or for another role than employee; any failure shows
    * the same error, and a reply that is not an array is an empty list. */
  method Load(user: Option<Json>, page: Responses, answer: Answer) returns (next: Responses, calls: seq<Call>)
    ensures !next.loading
    ensures !Truthy(Prop(user, "login")) || !HasRole(user, RoleEmployee) ==> calls == [] && next == page.(loading := false)
    ensures Truthy(Prop(user, "login")) && HasRole(user, RoleEmployee) ==>
              && calls == [ResponsesCall]
              && (OkJson(answer).Some? ==> next == page.(responses := ArrayOrEmpty(OkJson(answer).value), error := "", loading := false))
              && (OkJson(answer).None? ==> next == page.(error := LoadFailed, loading := false))
  {
    next := page;
    calls := [];
    if !Truthy(Prop(user, "login")) || Prop(user, "role") != Some(JStr(RoleEmployee)) {
      next := next.(loading := false);
      return;
    }
    next := next.(loading := true, error := "");
    calls := [ResponsesCall];
    if answer.Success? && answer.value.Ok() && answer.value.json.Some? {
      var data := answer.value.json.value;
      next := next.(responses := if data.JArr? then data.items else []);
    } else {
      next := next.(error := LoadFailed);
    }
    next := next.(loading := false);
  }

  /** `status?.toLowerCase() || ""`; `None` is a `null` or missing status. */
  function StatusLower(status: Option<string>): string {
    if status.Some? then Text.Lower(status.value) else ""
  }

  predicate IsApproved(status: Option<string>) {
    StatusLower(status) == "approved" || StatusLower(status) == "accepted"
  }

  /** `getStatusClass`: ignoring case, approved and accepted give the approved class, rejected
    * the rejected class, and everything else, a missing status included, the pending class. */
  function StatusClass(status: Option<string>): (r: string)
    ensures r == ApprovedClass <==> IsApproved(status)
    ensures r == RejectedClass <==> StatusLower(status) == "rejected"
    ensures r == PendingClass <==> !IsApproved(status) && StatusLower(status) != "rejected"
  {
    var s := StatusLower(status);
    if s == "pending" then PendingClass
    else if s == "approved" || s == "accepted" then ApprovedClass
    else if s == "rejected" then RejectedClass
    else PendingClass
  }

  /** `getStatusText`: the same mapping to Russian labels; an unknown status is shown as it is,
    * and a missing or empty one as "Неизвестно". */
  function StatusText(status: Option<string>): (r: string)
    ensures StatusLower(status) == "pending" ==> r == "На рассмотрении"
    ensures IsApproved(status) ==> r == "Одобрено"
    ensures StatusLower(status) == "rejected" ==> r == "Отклонено"
    ensures !IsApproved(status) && StatusLower(status) !in ["pending", "rejected"] ==>
              r == if status.Some? && status.value != "" then status.value else "Неизвестно"
    ensures r != ""
  {
    var s := StatusLower(status);
    if s == "pending" then "На рассмотрении"
    else if s == "approved" || s == "accepted" then "Одобрено"
    else if s == "rejected" then "Отклонено"
    else if status.Some? && status.value != "" then status.value else "Неизвестно"
  }

  /** Two statuses that differ only in case are shown alike, unless the status is unknown (then
    * it is shown as written). */
  lemma CaseInsensitive(a: string, b: string)
    requires Text.Lower(a) == Text.Lower(b)
    ensures StatusClass(Some(a)) == StatusClass(Some(b))
    ensures Text.Lower(a) in ["pending", "approved", "accepted", "rejected"] ==> StatusText(Some(a)) == StatusText(Some(b))
  {
  }

  /** "approved" and "accepted", in any case, read the same. */
  lemma ApprovedIsAccepted(a: string, b: string)
    requires Text.Lower(a) == "approved" && Text.Lower(b) == "accepted"
    ensures StatusClass(Some(a)) == StatusClass(Some(b)) == ApprovedClass
    ensures StatusText(Some(a)) == StatusText(Some(b)) == "Одобрено"
  {
  }

  /** The upper-case status the server sends is recognised. */
  lemma UpperAccepted()
    ensures StatusClass(Some("ACCEPTED")) == ApprovedClass
    ensures StatusText(Some("REJECTED")) == "Отклонено"
  {
    Text.LowerEach("ACCEPTED", "accepted");
    Text.LowerEach("REJECTED", "rejected");
  }
}
