/** The "become a courier" page (`/devino-livrator`): the form checks name and
    phone itself, with its own copy of the strict validator, and only then posts
    the request to `POST /api/courier-request`. Browser alerts are modelled as
    the last message shown. */
module BecomeCourierPage {
  import opened Wrappers
  import opened Text
  import opened Tables
  import Route = CourierRequestRoute

  /** The page's own copy of `normalizeRoMobile` (the same as the route's: `SameAsRoute`). */
  function NormalizeRoMobile(raw: string): Route.PhoneCheck {
    var d := Digits(Trim(raw));
    var d := if StartsWith(d, "0040") then "0" + d[4..] else d;
    var d := if StartsWith(d, "40") then "0" + d[2..] else d;
    if !Route.IsNationalMobile(d) then Route.PhoneCheck(false, "") else Route.PhoneCheck(true, "+4" + d)
  }

  /** The copy behaves as the route's validator on every input. */
  lemma SameAsRoute(raw: string)
    ensures NormalizeRoMobile(raw) == Route.NormalizeRoMobile(raw)
  {
  }

  const FillInNameAndPhone := "Completează numele și telefonul."
  const InvalidPhone := "Telefon invalid. Folosește 07xxxxxxxx sau +40/0040 (ex: 073xxxxxxx)."
  const SendFailed := "Eroare la trimitere. Încearcă din nou."
  const Sent := "Cererea ta a fost trimisă. Te contactăm după aprobare."
  const NetworkFailed := "Eroare. Verifică internetul și încearcă din nou."

  /** The checks `submit` makes before posting: the body to send, or the alert. */
  function CheckForm(name: string, phone: string, area: string): (r: Result<Route.Body>)
    ensures Trim(name) == "" || Trim(phone) == "" ==> r == Failure(FillInNameAndPhone)
    ensures Trim(name) != "" && Trim(phone) != "" && !NormalizeRoMobile(Trim(phone)).ok ==> r == Failure(InvalidPhone)
    ensures r.Success? <==> Trim(name) != "" && Trim(phone) != "" && NormalizeRoMobile(Trim(phone)).ok
    ensures r.Success? ==> r.value == Route.Parsed(Trim(name), Trim(phone), Trim(area))
  {
    var n, p, a := Trim(name), Trim(phone), Trim(area);
    if n == "" || p == "" then Failure(FillInNameAndPhone)
    else if !NormalizeRoMobile(p).ok then Failure(InvalidPhone)
    else Success(Route.Parsed(n, p, a))
  }

  /** Whatever the form lets through, the route's own checks accept too, and the
      route stores the number the form checked, in canonical form. */
  lemma RouteAcceptsWhatFormAccepts(name: string, phone: string, area: string)
    requires CheckForm(name, phone, area).Success?
    ensures var b := CheckForm(name, phone, area).value;
            Route.CheckApplicant(b.name, b.phone, b.area)
              == Success(Route.Applicant(Trim(name), NormalizeRoMobile(phone).normalized, Trim(area)))
  {
    TrimTrim(name);
    TrimTrim(phone);
    TrimTrim(area);
    DigitsIgnoresTrim(phone);
    SameAsRoute(Trim(phone));
    SameAsRoute(phone);
  }

  /** What the `fetch` to the route yields: the exception's message when the
      network fails, or whether the status was 2xx and the `error` field of the
      JSON answer (`None` when absent or unreadable). */
  datatype Response = NetworkError(message: string) | Answered(ok: bool, error: Option<string>)

  class Form {
    var name: string
    var phone: string
    var area: string
    var busy: bool
    /** The text of the last `alert`, if any. */
    var alerted: Option<string>

    constructor ()
      ensures name == "" && phone == "" && area == "" && !busy && alerted.None?
    {
      name, phone, area, busy, alerted := "", "", "", false, None;
    }

    /** `submit`: `sent` is the body posted to `/api/courier-request`, if any,
        and `response` what that request yields. */
    method Submit(response: Response) returns (sent: Option<Route.Body>)
      modifies this
      ensures var check := CheckForm(old(name), old(phone), old(area));
              && (check.Failure? ==> sent.None? && alerted == Some(check.error) && busy == old(busy))
              && (check.Success? ==> sent == Some(check.value) && !busy)
      ensures if sent.Some? && response.Answered? && response.ok
              then name == "" && phone == "" && area == "" && alerted == Some(Sent)
              else unchanged(`name, `phone, `area)
      ensures sent.Some? && response.NetworkError? ==>
                alerted == Some(if response.message != "" then response.message else NetworkFailed)
      ensures sent.Some? && response.Answered? && !response.ok ==>
                alerted == Some(if response.error.Some? && response.error.value != "" then response.error.value else SendFailed)
    {
      var check := CheckForm(name, phone, area);
      if check.Failure? {
        sent := None;
        alerted := Some(check.error);
      } else {
        sent := Some(check.value);
        busy := true;
        Settle(response);
      }
    }

    /** The part of `submit` after the request: the alert, the reset of the
        fields on success, and the `finally` that clears `busy`. */
    method Settle(response: Response)
      modifies this
      ensures !busy
      ensures if response.Answered? && response.ok
              then name == "" && phone == "" && area == "" && alerted == Some(Sent)
              else unchanged(`name, `phone, `area)
      ensures response.NetworkError? ==>
                alerted == Some(if response.message != "" then response.message else NetworkFailed)
      ensures response.Answered? && !response.ok ==>
                alerted == Some(if response.error.Some? && response.error.value != "" then response.error.value else SendFailed)
    {
      match response {
        case NetworkError(m) =>
          alerted := Some(if m != "" then m else NetworkFailed);
        case Answered(ok, e) =>
          if !ok {
            alerted := Some(if e.Some? && e.value != "" then e.value else SendFailed);
          } else {
            alerted := Some(Sent);
            name, phone, area := "", "", "";
          }
      }
      busy := false;
    }
  }
}
