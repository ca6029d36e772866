/** `POST /api/courier-request`: a visitor asks to become a courier. The
    handler checks name and phone, accepts only a Romanian mobile number, stores
    the request as `pending` with the phone in the canonical `+407…` form and
    then tries to notify the administrator by e-mail, which never makes the
    request fail. */
module CourierRequestRoute {
  import opened Wrappers
  import opened Text
  import opened Tables

  /** `{ ok, normalized }` as returned by `normalizeRoMobile`. */
  datatype PhoneCheck = PhoneCheck(ok: bool, normalized: string)

  /** `/^07\d{8}$/`. */
  predicate IsNationalMobile(d: string) {
    |d| == 10 && d[0] == '0' && d[1] == '7' && AllDigits(d)
  }

  /** The two prefix rewrites, applied one after the other:
      `0040…` becomes `0…`, and then `40…` becomes `0…`. */
  function ToNational(d: string): string {
    var d := if StartsWith(d, "0040") then "0" + d[4..] else d;
    if StartsWith(d, "40") then "0" + d[2..] else d
  }

  /** `normalizeRoMobile`: strict validation of a Romanian mobile number. */
  function NormalizeRoMobile(raw: string): (r: PhoneCheck)
    ensures r.ok ==> |r.normalized| == 12 && StartsWith(r.normalized, "+407") && AllDigits(r.normalized[1..])
    ensures !r.ok ==> r.normalized == ""
  {
    var d := ToNational(Digits(Trim(raw)));
    if IsNationalMobile(d) then PhoneCheck(true, "+4" + d) else PhoneCheck(false, "")
  }

  /** The digit strings the validator accepts: `07`, `407` or `00407`
      followed by eight digits. */
  predicate AcceptedDigits(d: string) {
    || (|d| == 10 && d[..2] == "07")
    || (|d| == 11 && d[..3] == "407")
    || (|d| == 13 && d[..5] == "00407")
  }

  // ---------------------------------------------------------------- the validator

  /** At most one of the two rewrites applies: what the first produces starts
      with `0`, which the second does not touch. */
  lemma AtMostOneRewrite(d: string)
    ensures ToNational(d) == if StartsWith(d, "0040") then "0" + d[4..]
                             else if StartsWith(d, "40") then "0" + d[2..]
                             else d
  {
    if StartsWith(d, "0040") {
      var e := "0" + d[4..];
      assert e[0] == '0';
      assert !StartsWith(e, "40");
    }
  }

  /** On a string of digits the rewrites yield a national mobile number
      exactly for the three accepted spellings. */
  lemma ToNationalAccepts(d: string)
    requires AllDigits(d)
    ensures IsNationalMobile(ToNational(d)) <==> AcceptedDigits(d)
    ensures IsNationalMobile(ToNational(d)) ==> ToNational(d) == "07" + d[|d| - 8..]
  {
    var n := ToNational(d);
    AtMostOneRewrite(d);
    if StartsWith(d, "0040") {
      if IsNationalMobile(n) {
        assert d[..5] == d[..4] + [d[4]];
      }
      if AcceptedDigits(d) {
        assert d[..2][1] == d[..4][1] == '0';
        assert |d| >= 3 ==> d[..3][0] == d[..4][0] == '0';
        assert |d| == 13 && d[..5] == "00407";
        assert d[4] == d[..5][4] == '7';
        assert n[1] == d[4];
      }
    } else if StartsWith(d, "40") {
      if IsNationalMobile(n) {
        assert d[..3] == d[..2] + [d[2]];
      }
      if AcceptedDigits(d) {
        assert d[..2] == "00" || d[..2] == "40";
      }
    }
  }

  /** Exactly the three spellings are accepted (any other character is ignored),
      and the canonical form keeps the last eight digits. */
  lemma AcceptsExactly(raw: string)
    ensures NormalizeRoMobile(raw).ok <==> AcceptedDigits(Digits(raw))
    ensures NormalizeRoMobile(raw).ok ==>
              NormalizeRoMobile(raw).normalized == "+407" + Digits(raw)[|Digits(raw)| - 8..]
  {
    DigitsIgnoresTrim(raw);
    KeepPasses(raw, IsDigit);
    ToNationalAccepts(Digits(raw));
  }

  /** Characters other than digits never change the outcome. */
  lemma OnlyDigitsMatter(a: string, b: string)
    requires Digits(a) == Digits(b)
    ensures NormalizeRoMobile(a) == NormalizeRoMobile(b)
  {
    DigitsIgnoresTrim(a);
    DigitsIgnoresTrim(b);
  }

  /** Inserting a separator (space, dash, dot, bracket, `+`) anywhere changes nothing. */
  lemma SeparatorsIgnored(s: string, i: nat, c: char)
    requires i <= |s| && !IsDigit(c)
    ensures NormalizeRoMobile(s[..i] + [c] + s[i..]) == NormalizeRoMobile(s)
  {
    KeepSkips(s[..i], s[i..], c, IsDigit);
    assert s[..i] + s[i..] == s;
    OnlyDigitsMatter(s[..i] + [c] + s[i..], s);
  }

  /** A number already in the canonical form is accepted unchanged. */
  lemma Canonical(t: string)
    requires |t| == 12 && StartsWith(t, "+407") && AllDigits(t[1..])
    ensures NormalizeRoMobile(t) == PhoneCheck(true, t)
  {
    var u := t[1..];
    assert t == "+" + u;
    DigitsAfterPlus(u);
    assert u[..3] == t[1..4] == "407";
    AcceptsExactly(t);
    assert t == "+407" + u[3..];
  }

  /** The canonical form is accepted again and normalises to itself. */
  lemma Idempotent(raw: string)
    requires NormalizeRoMobile(raw).ok
    ensures NormalizeRoMobile(NormalizeRoMobile(raw).normalized) == NormalizeRoMobile(raw)
  {
    Canonical(NormalizeRoMobile(raw).normalized);
  }

  /** A national mobile number is accepted as it is. */
  lemma National(t: string)
    requires IsNationalMobile(t)
    ensures NormalizeRoMobile(t) == PhoneCheck(true, "+4" + t)
  {
    KeepAll(t, IsDigit);
    AcceptsExactly(t);
    assert t == t[..2] + t[2..];
  }

  /** Whatever reduces to a national mobile number normalises to its canonical form. */
  lemma ReducesTo(x: string, t: string)
    requires IsNationalMobile(t) && ToNational(Digits(x)) == t
    ensures NormalizeRoMobile(x) == PhoneCheck(true, "+4" + t)
  {
    DigitsIgnoresTrim(x);
  }

  /** A national mobile number written with the country code `40`, `0040` or
      `+40` in front of its leading `0` normalises as the national form does. */
  lemma AllSpellings(t: string)
    requires IsNationalMobile(t)
    ensures NormalizeRoMobile(t) == PhoneCheck(true, "+4" + t)
    ensures NormalizeRoMobile("4" + t) == NormalizeRoMobile(t)
    ensures NormalizeRoMobile("004" + t) == NormalizeRoMobile(t)
    ensures NormalizeRoMobile("+4" + t) == NormalizeRoMobile(t)
  {
    National(t);
    CountryCode(t);
    InternationalPrefix(t);
    Canonical("+4" + t);
  }

  lemma CountryCode(t: string)
    requires IsNationalMobile(t)
    ensures NormalizeRoMobile("4" + t) == PhoneCheck(true, "+4" + t)
  {
    var a := "4" + t;
    forall i | 0 <= i < |a| ensures IsDigit(a[i]) { if i > 0 { assert a[i] == t[i - 1]; } }
    KeepAll(a, IsDigit);
    AtMostOneRewrite(a);
    assert !StartsWith(a, "0040") by { assert a[0] == '4'; }
    assert StartsWith(a, "40") by { assert a[..2] == [a[0], a[1]]; }
    assert "0" + a[2..] == t;
    ReducesTo(a, t);
  }

  lemma InternationalPrefix(t: string)
    requires IsNationalMobile(t)
    ensures NormalizeRoMobile("004" + t) == PhoneCheck(true, "+4" + t)
  {
    var b := "004" + t;
    forall i | 0 <= i < |b| ensures IsDigit(b[i]) { if i > 2 { assert b[i] == t[i - 3]; } }
    KeepAll(b, IsDigit);
    AtMostOneRewrite(b);
    assert StartsWith(b, "0040") by { assert b[..4] == [b[0], b[1], b[2], b[3]]; }
    assert "0" + b[4..] == t;
    ReducesTo(b, t);
  }

  /** The four usual spellings of one number give the same canonical form. */
  lemma FourSpellings()
    ensures NormalizeRoMobile("0740123456") == PhoneCheck(true, "+40740123456")
    ensures NormalizeRoMobile("+40740123456") == PhoneCheck(true, "+40740123456")
    ensures NormalizeRoMobile("0040740123456") == PhoneCheck(true, "+40740123456")
    ensures NormalizeRoMobile("40740123456") == PhoneCheck(true, "+40740123456")
  {
    assert "+4" + "0740123456" == "+40740123456";
    assert "4" + "0740123456" == "40740123456";
    assert "004" + "0740123456" == "0040740123456";
    AllSpellings("0740123456");
  }

  /** Too short a number, and ten digits that do not start with `07`, are refused. */
  lemma Rejections()
    ensures NormalizeRoMobile("123") == PhoneCheck(false, "")
    ensures NormalizeRoMobile("0812345678") == PhoneCheck(false, "")
  {
    AcceptsExactly("123");
    AcceptsExactly("0812345678");
  }

  // ---------------------------------------------------------------- the handler

  /** The JSON body: `String(body?.x ?? "")` of each field, or the parse error. */
  datatype Body = Parsed(name: string, phone: string, area: string) | Malformed(message: string)

  /** The fields of the row to store. */
  datatype Applicant = Applicant(name: string, phone: string, area: string)

  /** What the e-mail step needs: `RESEND_API_KEY`, `ADMIN_EMAIL` and the
      outcome of the send (`None`, or the message it threw). */
  datatype Mail = Mail(resendKey: Option<string>, adminEmail: Option<string>, sendError: Option<string>)

  /** The `ok: true` answer. */
  datatype Answer = Answer(request: CourierRequest, emailSent: bool, emailError: Option<string>)

  const MissingFields := "Nume și telefon sunt obligatorii."
  const InvalidPhone := "Telefon invalid. Folosește format RO: 07xxxxxxxx sau +40/0040 (ex: 073xxxxxxx)."
  const NoResendKey := "Lipsește RESEND_API_KEY din .env.local"
  const NoAdminEmail := "Lipsește ADMIN_EMAIL din .env.local"
  const UnknownMailError := "Eroare necunoscută la email."

  /** The checks made before the store is touched, in their order. */
  function CheckApplicant(name: string, phone: string, area: string): (r: Result<Applicant>)
    ensures (Trim(name) == "" || Trim(phone) == "") ==> r == Failure(MissingFields)
    ensures Trim(name) != "" && Trim(phone) != "" && !NormalizeRoMobile(Trim(phone)).ok ==> r == Failure(InvalidPhone)
    ensures r.Success? <==> Trim(name) != "" && Trim(phone) != "" && NormalizeRoMobile(Trim(phone)).ok
    ensures r.Success? ==> r.value.name == Trim(name) && r.value.area == Trim(area)
                           && r.value.phone == NormalizeRoMobile(Trim(phone)).normalized
  {
    var name, phone, area := Trim(name), Trim(phone), Trim(area);
    if name == "" || phone == "" then Failure(MissingFields)
    else
      var check := NormalizeRoMobile(phone);
      if !check.ok then Failure(InvalidPhone) else Success(Applicant(name, check.normalized, area))
  }

  /** The e-mail step: `emailSent`, and `emailError` when it did not go out. */
  function EmailOutcome(mail: Mail): (r: (bool, Option<string>))
    ensures r.0 <==> r.1.None?
    ensures r.0 <==> Truthy(mail.resendKey) && Truthy(mail.adminEmail) && mail.sendError.None?
    ensures !Truthy(mail.resendKey) ==> r.1 == Some(NoResendKey)
    ensures Truthy(mail.resendKey) && !Truthy(mail.adminEmail) ==> r.1 == Some(NoAdminEmail)
    ensures r.1.Some? ==> r.1.value != ""
  {
    if !Truthy(mail.resendKey) then (false, Some(NoResendKey))
    else if !Truthy(mail.adminEmail) then (false, Some(NoAdminEmail))
    else match mail.sendError
      case None => (true, None)
      case Some(m) => (false, Some(if m != "" then m else UnknownMailError))
  }

  /** The handler. `newId` and `now` are the id and `created_at` the store
      assigns; `insertFault` is the store's error, if any. */
  method Post(db: Database, body: Body, newId: string, now: int, insertFault: Option<string>, mail: Mail)
    returns (r: Reply<Answer>)
    modifies db`requests
    ensures body.Malformed? ==> r == Fail(500, body.message) && db.requests == old(db.requests)
    ensures body.Parsed? && CheckApplicant(body.name, body.phone, body.area).Failure? ==>
              r == Fail(400, CheckApplicant(body.name, body.phone, body.area).error) && db.requests == old(db.requests)
    ensures !r.Redirect?
    ensures !r.Ok? ==> db.requests == old(db.requests)
    ensures r.Fail? && body.Parsed? && CheckApplicant(body.name, body.phone, body.area).Success? ==>
              r.status == 500 && db.requests == old(db.requests)
    ensures body.Parsed? && CheckApplicant(body.name, body.phone, body.area).Success? && insertFault.Some? ==>
              r == Fail(500, "Eroare DB: " + insertFault.value)
    ensures body.Parsed? && CheckApplicant(body.name, body.phone, body.area).Success? && insertFault.None?
            && newId in old(db.requests) ==>
              r == Fail(500, "Eroare DB: " + DuplicateKey)
    ensures r.Ok? <==> body.Parsed? && CheckApplicant(body.name, body.phone, body.area).Success?
                       && insertFault.None? && newId !in old(db.requests)
    ensures r.Ok? ==>
              var a := CheckApplicant(body.name, body.phone, body.area).value;
              var row := CourierRequest(newId, now, a.name, a.phone, a.area, "pending");
              && db.requests == old(db.requests)[newId := row]
              && r.value == Answer(row, EmailOutcome(mail).0, EmailOutcome(mail).1)
  {
    if body.Malformed? {
      return Fail(500, body.message);
    }
    var check := CheckApplicant(body.name, body.phone, body.area);
    if check.Failure? {
      return Fail(400, check.error);
    }
    var a := check.value;
    var row := CourierRequest(newId, now, a.name, a.phone, a.area, "pending");
    var err := db.InsertRequest(row, insertFault);
    if err.Some? {
      return Fail(500, "Eroare DB: " + err.value);
    }
    var sent := EmailOutcome(mail);
    r := Ok(Answer(row, sent.0, sent.1));
  }
}
