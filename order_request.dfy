/** The order form (`/cerere`): a signed-in client describes what is needed
    and where; name and phone come from the profile when it has them, the
    phone passes the lenient normaliser, and the order is inserted as
    `active`. */
module OrderRequestPage {
  import opened Wrappers
  import opened Text
  import opened Tables

  predicate AllDigitsOrPlus(s: string) { forall i :: 0 <= i < |s| ==> IsDigitOrPlus(s[i]) }

  /** The three prefix rewrites of `normalizePhone`, applied one after the
      other. At most one of them takes effect: each result starts with `+`,
      which the later rewrites leave alone. */
  function Rewrite(c: string): (r: string)
    ensures r == if StartsWith(c, "07") then "+4" + c
                 else if StartsWith(c, "0040") then "+40" + c[4..]
                 else if StartsWith(c, "40") then "+" + c
                 else c
  {
    var c1 := if StartsWith(c, "07") then "+4" + c else c;
    assert StartsWith(c, "07") ==> c1[0] == '+' && !StartsWith(c1, "0040");
    var c2 := if StartsWith(c1, "0040") then "+40" + c1[4..] else c1;
    assert StartsWith(c1, "0040") || StartsWith(c, "07") ==> c2[0] == '+' && !StartsWith(c2, "40");
    assert StartsWith(c2, "40") ==> c2[0] == '4' && !StartsWith(c2, "+");
    if StartsWith(c2, "40") && !StartsWith(c2, "+") then "+" + c2 else c2
  }

  /** `normalizePhone`: keeps digits and `+`, rewrites the prefix, and gives
      `null` when fewer than ten digits remain. */
  function NormalizePhone(raw: string): (r: Option<string>)
    ensures r.Some? ==> |r.value| >= 10
  {
    var cleaned := Rewrite(DigitsAndPlus(Trim(raw)));
    if |Digits(cleaned)| < 10 then None else Some(cleaned)
  }

  /** The number of digits left after the rewrites: one more for a `07`
      number, the two zeros of `0040` fewer. */
  function DigitCount(c: string): int {
    |Digits(c)| + (if StartsWith(c, "07") then 1 else if StartsWith(c, "0040") then -2 else 0)
  }

  // ---------------------------------------------------------------- lemmas

  lemma RewriteKeepsClass(c: string)
    requires AllDigitsOrPlus(c)
    ensures AllDigitsOrPlus(Rewrite(c))
  {
    var r := Rewrite(c);
    if StartsWith(c, "07") {
      assert forall i :: 2 <= i < |r| ==> r[i] == c[i - 2];
    } else if StartsWith(c, "0040") {
      assert forall i :: 3 <= i < |r| ==> r[i] == c[i + 1];
    } else if StartsWith(c, "40") {
      assert forall i :: 1 <= i < |r| ==> r[i] == c[i - 1];
    }
  }

  lemma DigitsOfRewrite(c: string)
    ensures |Digits(Rewrite(c))| == DigitCount(c)
  {
    if StartsWith(c, "07") {
      KeepConcat("+4", c, IsDigit);
    } else if StartsWith(c, "0040") {
      KeepConcat("+40", c[4..], IsDigit);
      assert c == c[..4] + c[4..];
      KeepConcat(c[..4], c[4..], IsDigit);
      assert Digits(c[..4]) == "0040" by { assert c[..4] == "0040"; }
    } else if StartsWith(c, "40") {
      KeepConcat("+", c, IsDigit);
    }
  }

  /** A normalised number holds only digits and `+`, and at least ten digits. */
  lemma NormalizedForm(raw: string)
    requires NormalizePhone(raw).Some?
    ensures var x := NormalizePhone(raw).value;
            AllDigitsOrPlus(x) && |Digits(x)| >= 10
  {
    var c := DigitsAndPlus(Trim(raw));
    KeepPasses(Trim(raw), IsDigitOrPlus);
    RewriteKeepsClass(c);
  }

  /** The result is `null` exactly when fewer than ten digits remain after
      the rewrites; nothing else is checked, in particular not the `07` prefix. */
  lemma NullExactly(raw: string)
    ensures NormalizePhone(raw).None? <==> DigitCount(DigitsAndPlus(raw)) < 10
  {
    KeepIgnoresTrim(raw, IsDigitOrPlus);
    DigitsOfRewrite(DigitsAndPlus(raw));
  }

  /** A value already rewritten is not rewritten again. */
  lemma RewriteFixed(c: string)
    ensures Rewrite(Rewrite(c)) == Rewrite(c)
  {
    var r := Rewrite(c);
    if r != c {
      assert r[0] == '+';
      assert !StartsWith(r, "07") && !StartsWith(r, "0040") && !StartsWith(r, "40");
    }
  }

  /** Normalising a normalised number returns it unchanged. */
  lemma Idempotent(raw: string)
    requires NormalizePhone(raw).Some?
    ensures NormalizePhone(NormalizePhone(raw).value) == NormalizePhone(raw)
  {
    var x := NormalizePhone(raw).value;
    var c := DigitsAndPlus(Trim(raw));
    assert x == Rewrite(c);
    NormalizedForm(raw);
    TrimNoSpace(x);
    KeepAll(x, IsDigitOrPlus);
    RewriteFixed(c);
  }

  /** `NormalizePhone` on a string of digits and `+` without white space. */
  lemma Spelling(raw: string)
    requires AllDigitsOrPlus(raw)
    ensures NormalizePhone(raw) == if |Digits(Rewrite(raw))| < 10 then None else Some(Rewrite(raw))
  {
    TrimNoSpace(raw);
    KeepAll(raw, IsDigitOrPlus);
  }

  /** A national number `07…` of at least nine digits gains the country code `+4`. */
  lemma NationalSpelling(t: string)
    requires AllDigits(t) && |t| >= 9 && t[0] == '0' && t[1] == '7'
    ensures NormalizePhone(t) == Some("+4" + t)
  {
    assert t[..2] == "07";
    Spelling(t);
    DigitsOfRewrite(t);
    KeepAll(t, IsDigit);
  }

  /** `0040…` becomes `+40…`. */
  lemma ZeroZeroSpelling(t: string)
    requires AllDigits(t) && |t| >= 8
    ensures NormalizePhone("0040" + t) == Some("+40" + t)
  {
    var a := "0040" + t;
    assert a[..4] == "0040" && a[4..] == t;
    assert !StartsWith(a, "07") by { assert a[..2][1] == '0'; }
    assert AllDigitsOrPlus(a) by {
      assert forall i :: 4 <= i < |a| ==> a[i] == t[i - 4];
    }
    assert Rewrite(a) == "+40" + t;
    FortyDigits(t);
    assert "+40" + t == "+" + ("40" + t);
    DigitsAfterPlus("40" + t);
    Spelling(a);
  }

  /** `40…` becomes `+40…`. */
  lemma FortySpelling(t: string)
    requires AllDigits(t) && |t| >= 8
    ensures NormalizePhone("40" + t) == Some("+40" + t)
  {
    var b := "40" + t;
    assert b[..2] == "40";
    assert "+" + b == "+40" + t;
    assert !StartsWith(b, "07") && !StartsWith(b, "0040") by { assert b[..2][0] == '4'; }
    Spelling(b);
    FortyDigits(t);
    DigitsAfterPlus(b);
  }

  /** `+40…` is kept as it is. */
  lemma PlusSpelling(t: string)
    requires AllDigits(t) && |t| >= 8
    ensures NormalizePhone("+40" + t) == Some("+40" + t)
  {
    var c := "+40" + t;
    assert c == "+" + ("40" + t);
    assert !StartsWith(c, "07") && !StartsWith(c, "0040") && !StartsWith(c, "40") by { assert c[..2][0] == '+'; }
    Spelling(c);
    FortyDigits(t);
    DigitsAfterPlus("40" + t);
  }

  lemma FortyDigits(t: string)
    requires AllDigits(t)
    ensures AllDigits("40" + t)
  {
    var b := "40" + t;
    assert forall i :: 2 <= i < |b| ==> b[i] == t[i - 2];
  }

  /** Ten digits without a recognised prefix are accepted as they are: there
      is no check that the number is a mobile one. */
  lemma OtherDigits(t: string)
    requires AllDigits(t) && |t| >= 10
    requires t[0] != '4' && !(t[0] == '0' && (t[1] == '0' || t[1] == '7'))
    ensures NormalizePhone(t) == Some(t)
  {
    assert !StartsWith(t, "07") && !StartsWith(t, "0040") && !StartsWith(t, "40") by {
      assert t[..2][0] == t[0] && t[..2][1] == t[1];
    }
    Spelling(t);
    KeepAll(t, IsDigit);
  }

  /** The usual spellings of one number give the same result. */
  lemma Spellings()
    ensures NormalizePhone("0740123456") == Some("+40740123456")
    ensures NormalizePhone("0040740123456") == Some("+40740123456")
    ensures NormalizePhone("40740123456") == Some("+40740123456")
    ensures NormalizePhone("+40740123456") == Some("+40740123456")
  {
    var t := "740123456";
    assert AllDigits(t) by { assert forall i :: 0 <= i < |t| ==> t[i] in "0123456789"; }
    assert "0" + t == "0740123456";
    assert "+4" + "0740123456" == "+40740123456" == "+40" + t;
    assert "0040" + t == "0040740123456";
    assert "40" + t == "40740123456";
    assert AllDigits("0" + t) by { assert forall i :: 1 <= i < |"0" + t| ==> ("0" + t)[i] == t[i - 1]; }
    NationalSpelling("0" + t);
    ZeroZeroSpelling(t);
    FortySpelling(t);
    PlusSpelling(t);
  }

  /** Ten digits that are not a mobile number are accepted. */
  lemma NotMobileAccepted()
    ensures NormalizePhone("0812345678") == Some("0812345678")
  {
    var t := "0812345678";
    assert AllDigits(t) by { assert forall i :: 0 <= i < |t| ==> t[i] in "0123456789"; }
    OtherDigits(t);
  }

  // ---------------------------------------------------------------- the form

  const MissingRequired := "Completează câmpurile obligatorii (Ce ai nevoie? + Adresă)."
  const MustSignIn := "Trebuie să fii logat ca să trimiți o cerere."
  const MissingNameAndPhone := "Completează Nume și Telefon (se salvează în contul tău)."
  /** What `who_where` puts between the name and the address. */
  const Separator := " \U{2022} "
  const InvalidPhone := "Număr de telefon invalid. Accept: 07 / +40 / 0040 (minim 10 cifre)."

  /** `(fromProfile ?? "").trim() || typed.trim()`: the profile's value wins
      unless it is missing or blank. */
  function Effective(fromProfile: Option<string>, typed: string): (r: string)
    ensures fromProfile.Some? && Trim(fromProfile.value) != "" ==> r == Trim(fromProfile.value)
    ensures (fromProfile.None? || Trim(fromProfile.value) == "") ==> r == Trim(typed)
  {
    var p := Trim(fromProfile.GetOr(""));
    if p != "" then p else Trim(typed)
  }

  /** `profile?.full_name` and `profile?.phone`. */
  function ProfileName(profile: Option<Profile>): Option<string> {
    if profile.Some? then profile.value.fullName else None
  }

  function ProfilePhone(profile: Option<Profile>): Option<string> {
    if profile.Some? then profile.value.phone else None
  }

  /** What `submit` derives once the user is known: the id of the signed-in
      user, the name and the normalised phone for the order. */
  datatype Draft = Draft(clientId: string, name: string, phone: string)

  /** The checks `submit` makes after the first one, in their order: the
      signed-in user (`authUser` is the id `auth.getUser()` yields, `None`
      when it fails or there is none), then name and phone, then the phone's
      form. */
  function Prepare(authUser: Option<string>, profile: Option<Profile>, name: string, phone: string): (r: Result<Draft>)
    ensures authUser.None? ==> r == Failure(MustSignIn)
    ensures r.Success? ==> authUser == Some(r.value.clientId)
    ensures var n := Effective(ProfileName(profile), name);
            var p := Effective(ProfilePhone(profile), phone);
            && (authUser.Some? && (n == "" || p == "") ==> r == Failure(MissingNameAndPhone))
            && (authUser.Some? && n != "" && p != "" && NormalizePhone(p).None? ==> r == Failure(InvalidPhone))
            && (r.Success? <==> authUser.Some? && n != "" && p != "" && NormalizePhone(p).Some?)
            && (r.Success? ==> r.value.name == n && NormalizePhone(p) == Some(r.value.phone))
  {
    if authUser.None? then Failure(MustSignIn)
    else
      var n := Effective(ProfileName(profile), name);
      var p := Effective(ProfilePhone(profile), phone);
      if n == "" || p == "" then Failure(MissingNameAndPhone)
      else match NormalizePhone(p)
        case None => Failure(InvalidPhone)
        case Some(ph) => Success(Draft(authUser.value, n, ph))
  }

  /** The profile of a signed-in user lacks a usable name or phone: the
      case in which `submit` saves the values it derived. */
  predicate ProfileIncomplete(profile: Option<Profile>) {
    || profile.None?
    || profile.value.fullName.None? || Trim(profile.value.fullName.value) == ""
    || profile.value.phone.None? || Trim(profile.value.phone.value) == ""
  }

  /** The row `submit` inserts: an `active` order of the signed-in client
      with the normalised phone, `who_where` being the name, a bullet and the
      address; the columns the insert does not name take their defaults. */
  function NewOrder(id: string, now: int, what: string, address: string, urgent: bool, d: Draft): (o: Order)
    ensures o.id == id && o.createdAt == now && o.what == Some(what) && o.urgent == Some(urgent)
    ensures o.status == Some("active") && o.clientId == Some(d.clientId) && o.phone == Some(d.phone)
    ensures o.whoWhere == Some(d.name + Separator + address)
    ensures o.acceptedById.None? && o.acceptedAt.None? && o.cancelledAt.None? && !o.phoneVerified
  {
    Order(id, now, Some(what), Some(d.name + Separator + address), Some(d.phone), Some(urgent), Some("active"), Some(d.clientId),
          None, None, None, None, None, None, None, false)
  }

  class OrderForm {
    var what: string
    var name: string
    var address: string
    var phone: string
    var urgent: bool
    var loading: bool
    var err: Option<string>
    var successOpen: bool

    constructor ()
      ensures what == "" && name == "" && address == "" && phone == "" && !urgent
      ensures !loading && err.None? && !successOpen
    {
      what, name, address, phone := "", "", "", "";
      urgent, loading, err, successOpen := false, false, None, false;
    }

    /** `submit`. `sessionUser` is the user id of the session the page knows,
        `authUser` what `auth.getUser()` yields, `profile` the loaded profile;
        `newId` and `now` are what the store assigns to a new order, and the
        faults are the store's errors of the profile update and the insert. */
    method Submit(db: Database, sessionUser: Option<string>, authUser: Option<string>, profile: Option<Profile>,
                  newId: string, now: int, profileFault: Option<string>, insertFault: Option<string>)
      modifies this, db`orders, db`profiles
      ensures Trim(old(what)) == "" || Trim(old(address)) == "" ==>
                && err == Some(MissingRequired) && db.orders == old(db.orders) && db.profiles == old(db.profiles)
                && unchanged(`what, `address, `urgent, `successOpen, `loading)
      ensures Trim(old(what)) != "" && Trim(old(address)) != "" ==>
                Placed(db, Trim(old(what)), Trim(old(address)), old(what), old(address), old(urgent), old(successOpen),
                       old(db.orders), old(db.profiles), Prepare(authUser, profile, old(name), old(phone)),
                       sessionUser, profile, newId, now, profileFault, insertFault)
      ensures unchanged(`name, `phone)
    {
      var w, a := Trim(what), Trim(address);
      if w == "" || a == "" {
        err := Some(MissingRequired);
        return;
      }
      var d := Prepare(authUser, profile, name, phone);
      Send(db, w, a, d, sessionUser, profile, newId, now, profileFault, insertFault);
    }

    /** The `try … finally` part of `submit`, once the order's text and address
        (`w`, `a`, trimmed) are known to be present and `d` is the outcome of the
        sign-in, name and phone checks. */
    method Send(db: Database, w: string, a: string, d: Result<Draft>, sessionUser: Option<string>, profile: Option<Profile>,
                newId: string, now: int, profileFault: Option<string>, insertFault: Option<string>)
      modifies this, db`orders, db`profiles
      ensures Placed(db, w, a, old(what), old(address), old(urgent), old(successOpen), old(db.orders), old(db.profiles),
                     d, sessionUser, profile, newId, now, profileFault, insertFault)
      ensures unchanged(`name, `phone)
    {
      var e := Record(db, w, a, urgent, d, sessionUser, profile, newId, now, profileFault, insertFault);
      var done := d.Success? && e.None?;
      err, loading := e, false;
      what, address := if done then "" else what, if done then "" else address;
      urgent, successOpen := if done then false else urgent, done || successOpen;
    }

    /** The store calls of `submit`: the profile update and the insert;
        `e` is the message `submit` shows (`None` when the order went in). */
    static method Record(db: Database, w: string, a: string, urgent: bool, d: Result<Draft>,
                         sessionUser: Option<string>, profile: Option<Profile>,
                         newId: string, now: int, profileFault: Option<string>, insertFault: Option<string>)
      returns (e: Option<string>)
      modifies db`orders, db`profiles
      ensures d.Failure? ==> e == Some(d.error) && db.orders == old(db.orders) && db.profiles == old(db.profiles)
      ensures d.Success? ==>
                && db.profiles == (if Truthy(sessionUser) && ProfileIncomplete(profile) && profileFault.None?
                                   then WithContact(old(db.profiles), d.value.clientId, d.value.name, d.value.phone)
                                   else old(db.profiles))
                && e == (if insertFault.Some? then insertFault else if newId in old(db.orders) then Some(DuplicateKey) else None)
                && db.orders == if e.None? then old(db.orders)[newId := NewOrder(newId, now, w, a, urgent, d.value)]
                                else old(db.orders)
    {
      e := if d.Failure? then Some(d.error) else None;
      if d.Success? {
        if Truthy(sessionUser) && ProfileIncomplete(profile) {
          var _ := db.UpdateProfile(d.value.clientId, d.value.name, d.value.phone, profileFault);
        }
        e := db.InsertOrder(NewOrder(newId, now, w, a, urgent, d.value), insertFault);
      }
    }

    /** The form and the store after the `try … finally` part of `submit`,
        from their state before it (`what0` … `profiles0`): a failed check
        shows its message and writes nothing; otherwise an incomplete profile
        of a signed-in session is completed, and the order is inserted, which
        on success empties the order fields and opens the confirmation. */
    predicate Placed(db: Database, w: string, a: string, what0: string, address0: string, urgent0: bool, open0: bool,
                     orders0: map<string, Order>, profiles0: map<string, Profile>,
                     d: Result<Draft>, sessionUser: Option<string>, profile: Option<Profile>,
                     newId: string, now: int, profileFault: Option<string>, insertFault: Option<string>)
      reads this, db
    {
      && !loading
      && (d.Failure? ==>
            && err == Some(d.error) && db.orders == orders0 && db.profiles == profiles0
            && what == what0 && address == address0 && urgent == urgent0 && successOpen == open0)
      && (d.Success? ==>
            && db.profiles == (if Truthy(sessionUser) && ProfileIncomplete(profile) && profileFault.None?
                               then WithContact(profiles0, d.value.clientId, d.value.name, d.value.phone)
                               else profiles0)
            && (insertFault.None? && newId !in orders0 ==>
                  && db.orders == orders0[newId := NewOrder(newId, now, w, a, urgent0, d.value)]
                  && err.None? && what == "" && address == "" && !urgent && successOpen)
            && (insertFault.Some? || newId in orders0 ==>
                  && db.orders == orders0 && err == (if insertFault.Some? then insertFault else Some(DuplicateKey))
                  && what == what0 && address == address0 && urgent == urgent0 && successOpen == open0))
    }
  }
}
