/** The registration form (`/inregistrare`): the fields are checked one after
    the other and the first failing check decides the message; only when all
    pass is the account created and the profile written. */
module RegistrationPage {
  import opened Wrappers
  import opened Text
  import opened Tables
  import OrderRequestPage

  /** The page's own copy of the lenient `normalizePhone` (the same as the
      order form's: `SameAsOrderForm`). */
  function NormalizePhone(raw: string): Option<string> {
    var cleaned := DigitsAndPlus(Trim(raw));
    var cleaned := if StartsWith(cleaned, "07") then "+4" + cleaned else cleaned;
    var cleaned := if StartsWith(cleaned, "0040") then "+40" + cleaned[4..] else cleaned;
    var cleaned := if StartsWith(cleaned, "40") && !StartsWith(cleaned, "+") then "+" + cleaned else cleaned;
    if |Digits(cleaned)| < 10 then None else Some(cleaned)
  }

  /** The copy behaves as the order form's normaliser on every input. */
  lemma SameAsOrderForm(raw: string)
    ensures NormalizePhone(raw) == OrderRequestPage.NormalizePhone(raw)
  {
  }

  /** `register` trims the phone before normalising it, which the normaliser
      does anyway: the result is that of the raw input. */
  lemma TrimBeforeIrrelevant(raw: string)
    ensures NormalizePhone(Trim(raw)) == NormalizePhone(raw)
  {
    TrimTrim(raw);
  }

  const MissingName := "Completează Nume."
  const InvalidPhone := "Telefon invalid. Accept: 07 / +40 / 0040 (minim 10 cifre)."
  const MissingPlate := "Completează numărul de înmatriculare."
  const MissingCredentials := "Completează Email + Parola + Confirmă parola."
  const ShortPassword := "Parola trebuie să aibă minim 6 caractere."
  const PasswordsDiffer := "Parolele nu coincid."
  const NoUserCreated := "Nu s-a creat userul. Încearcă din nou."

  /** One check of the chain: whether it passes, and its message. */
  datatype Check = Check(passes: bool, message: string)

  /** The message of the first check that fails, `None` when all pass. */
  function FirstFailing(cs: seq<Check>): (r: Option<string>)
    ensures r.None? <==> forall i :: 0 <= i < |cs| ==> cs[i].passes
    ensures r.Some? ==>
              exists i :: 0 <= i < |cs| && !cs[i].passes && cs[i].message == r.value
                          && forall j :: 0 <= j < i ==> cs[j].passes
  {
    if cs == [] then None
    else if !cs[0].passes then Some(cs[0].message)
    else
      var r := FirstFailing(cs[1..]);
      assert forall i :: 1 <= i < |cs| ==> cs[i] == cs[1..][i - 1];
      if r.Some? then
        var k :| 0 <= k < |cs[1..]| && !cs[1..][k].passes && cs[1..][k].message == r.value
                 && forall j :: 0 <= j < k ==> cs[1..][j].passes;
        assert !cs[k + 1].passes && cs[k + 1].message == r.value;
        r
      else r
  }

  /** The six checks of `register`, in their order; the plate is checked for
      couriers only, and the passwords are judged trimmed. */
  function Checks(role: Role, fullName: string, phone: string, plate: string,
                  email: string, password: string, password2: string): (cs: seq<Check>)
    ensures |cs| == 6
  {
    var p1, p2 := Trim(password), Trim(password2);
    [ Check(Trim(fullName) != "", MissingName),
      Check(NormalizePhone(Trim(phone)).Some?, InvalidPhone),
      Check(role != CourierRole || Utf16Length(Trim(plate)) >= 3, MissingPlate),
      Check(Trim(email) != "" && p1 != "" && p2 != "", MissingCredentials),
      Check(Utf16Length(p1) >= 6, ShortPassword),
      Check(p1 == p2, PasswordsDiffer) ]
  }

  /** What `register` sends and stores once every check passes. */
  datatype Registration = Registration(
    role: Role, fullName: string, phone: string, plate: Option<string>, email: string, password: string)

  /** The checks of `register` as its chain of early returns makes them: the
      first failure, or the values to register. */
  function Validate(role: Role, fullName: string, phone: string, plate: string,
                    email: string, password: string, password2: string): (r: Result<Registration>)
    ensures r.Success? ==>
              && r.value.role == role && r.value.fullName == Trim(fullName) != ""
              && NormalizePhone(phone) == Some(r.value.phone)
              && r.value.email == Trim(email) != ""
              && r.value.password == Trim(password) == Trim(password2) && Utf16Length(r.value.password) >= 6
              && r.value.plate == (if role == CourierRole then Some(Trim(plate)) else None)
              && (role == CourierRole ==> Utf16Length(Trim(plate)) >= 3)
  {
    var n := Trim(fullName);
    var ph := NormalizePhone(Trim(phone));
    var e, p1, p2 := Trim(email), Trim(password), Trim(password2);
    if n == "" then Failure(MissingName)
    else if ph.None? then Failure(InvalidPhone)
    else if role == CourierRole && Utf16Length(Trim(plate)) < 3 then Failure(MissingPlate)
    else if e == "" || p1 == "" || p2 == "" then Failure(MissingCredentials)
    else if Utf16Length(p1) < 6 then Failure(ShortPassword)
    else if p1 != p2 then Failure(PasswordsDiffer)
    else
      TrimBeforeIrrelevant(phone);
      Success(Registration(role, n, ph.value, if role == CourierRole then Some(Trim(plate)) else None, e, p1))
  }

  /** The chain fails exactly when one of the six checks does, and with the
      message of the first one that does. */
  lemma FirstFailureDecides(role: Role, fullName: string, phone: string, plate: string,
                            email: string, password: string, password2: string)
    ensures var v := Validate(role, fullName, phone, plate, email, password, password2);
            var f := FirstFailing(Checks(role, fullName, phone, plate, email, password, password2));
            (v.Failure? <==> f.Some?) && (v.Failure? ==> f == Some(v.error))
  {
    FirstOfSix(Checks(role, fullName, phone, plate, email, password, password2));
  }

  /** `FirstFailing` on six checks, spelled out. */
  lemma FirstOfSix(cs: seq<Check>)
    requires |cs| == 6
    ensures FirstFailing(cs) ==
              if !cs[0].passes then Some(cs[0].message)
              else if !cs[1].passes then Some(cs[1].message)
              else if !cs[2].passes then Some(cs[2].message)
              else if !cs[3].passes then Some(cs[3].message)
              else if !cs[4].passes then Some(cs[4].message)
              else if !cs[5].passes then Some(cs[5].message)
              else None
  {
    forall k | 0 <= k < 6
      ensures FirstFailing(cs[k..]) == if !cs[k].passes then Some(cs[k].message) else FirstFailing(cs[k + 1..])
    {
      assert cs[k..][0] == cs[k] && cs[k..][1..] == cs[k + 1..];
    }
    assert cs[6..] == [];
    assert cs[0..] == cs;
  }

  /** For a client the plate field plays no part at all. */
  lemma PlateOnlyForCouriers(fullName: string, phone: string, plate1: string, plate2: string,
                             email: string, password: string, password2: string)
    ensures Validate(ClientRole, fullName, phone, plate1, email, password, password2)
         == Validate(ClientRole, fullName, phone, plate2, email, password, password2)
  {
  }

  /** White space around the passwords never changes the outcome. */
  lemma PasswordsJudgedTrimmed(role: Role, fullName: string, phone: string, plate: string,
                               email: string, password: string, password2: string)
    ensures Validate(role, fullName, phone, plate, email, password, password2)
         == Validate(role, fullName, phone, plate, email, Trim(password), Trim(password2))
  {
    TrimTrim(password);
    TrimTrim(password2);
  }

  /** A courier with a plate shorter than three code units (after trimming)
      is refused once name and phone pass, whatever the other fields hold. */
  lemma CourierNeedsPlate(fullName: string, phone: string, plate: string,
                          email: string, password: string, password2: string)
    requires Trim(fullName) != "" && NormalizePhone(phone).Some? && Utf16Length(Trim(plate)) < 3
    ensures Validate(CourierRole, fullName, phone, plate, email, password, password2) == Failure(MissingPlate)
  {
    TrimBeforeIrrelevant(phone);
  }

  /** The length checks count UTF-16 code units, as `.length` does: three
      emoji make a password of six units and two emoji a plate of four, so a
      courier with both is registered. */
  lemma AstralLengthsCount(fullName: string, phone: string, email: string)
    requires Trim(fullName) != "" && NormalizePhone(phone).Some? && Trim(email) != ""
    ensures var pw, plate := "\U{1F600}\U{1F600}\U{1F600}", "\U{1F697}\U{1F697}";
            && |pw| == 3 && |plate| == 2
            && Validate(CourierRole, fullName, phone, plate, email, pw, pw).Success?
  {
    var pw, plate := "\U{1F600}\U{1F600}\U{1F600}", "\U{1F697}\U{1F697}";
    TrimNoSpace(pw);
    TrimNoSpace(plate);
    assert pw[1..] == "\U{1F600}\U{1F600}" && pw[1..][1..] == "\U{1F600}";
    assert plate[1..] == "\U{1F697}";
    assert Utf16Length(pw) == 6 && Utf16Length(plate) == 4;
    TrimBeforeIrrelevant(phone);
  }

  /** The profile row `register` upserts for the new account `userId`. */
  function ProfileRow(userId: string, reg: Registration): (p: Profile)
    ensures p.id == userId && p.role == reg.role
    ensures p.fullName == Some(reg.fullName) && p.phone == Some(reg.phone)
    ensures p.vehiclePlate == reg.plate
  {
    Profile(userId, reg.role, Some(reg.fullName), Some(reg.phone), reg.plate)
  }

  /** The stored profile has the normalised phone, and no plate for a client. */
  lemma StoredProfile(userId: string, role: Role, fullName: string, phone: string, plate: string,
                      email: string, password: string, password2: string)
    requires Validate(role, fullName, phone, plate, email, password, password2).Success?
    ensures var p := ProfileRow(userId, Validate(role, fullName, phone, plate, email, password, password2).value);
            && NormalizePhone(phone) == p.phone
            && (role == ClientRole ==> p.vehiclePlate.None?)
            && (role == CourierRole ==> p.vehiclePlate == Some(Trim(plate)))
  {
  }

  /** What `auth.signUp` yields: its error, success without a user, or the new user's id. */
  datatype SignUp = SignUpError(message: string) | NoUser | Created(userId: string)

  /** The e-mail and password passed to `auth.signUp`. */
  datatype Credentials = Credentials(email: string, password: string)

  class RegistrationForm {
    var role: Role
    var fullName: string
    var phone: string
    var vehiclePlate: string
    var email: string
    var password: string
    var password2: string
    var loading: bool
    var err: Option<string>
    /** Whether the page moved on to `next`. */
    var redirected: bool

    constructor ()
      ensures role == ClientRole && fullName == "" && phone == "" && vehiclePlate == ""
      ensures email == "" && password == "" && password2 == ""
      ensures !loading && err.None? && !redirected
    {
      role, fullName, phone, vehiclePlate := ClientRole, "", "", "";
      email, password, password2 := "", "", "";
      loading, err, redirected := false, None, false;
    }

    /** `register`. `signUp` is what the sign-up call yields and `profileFault`
        the store's error of the profile upsert; `sent` is what was passed to
        the sign-up call, if it was made. */
    method Register(db: Database, signUp: SignUp, profileFault: Option<string>) returns (sent: Option<Credentials>)
      modifies this`err, this`loading, this`redirected, db`profiles
      ensures var v := Validate(old(role), old(fullName), old(phone), old(vehiclePlate),
                                old(email), old(password), old(password2));
              && (v.Failure? ==>
                    && sent.None? && err == Some(v.error) && db.profiles == old(db.profiles)
                    && loading == old(loading) && redirected == old(redirected))
              && (v.Success? ==>
                    && sent == Some(Credentials(v.value.email, v.value.password))
                    && Enrolled(db, v.value, signUp, profileFault, old(db.profiles), old(redirected)))
    {
      err := None;
      var v := Validate(role, fullName, phone, vehiclePlate, email, password, password2);
      if v.Failure? {
        sent := None;
        err := Some(v.error);
        return;
      }
      sent := Some(Credentials(v.value.email, v.value.password));
      loading := true;
      Enroll(db, v.value, signUp, profileFault);
    }

    /** The `try … finally` part of `register`. */
    method Enroll(db: Database, reg: Registration, signUp: SignUp, profileFault: Option<string>)
      requires err.None?
      modifies this`err, this`loading, this`redirected, db`profiles
      ensures Enrolled(db, reg, signUp, profileFault, old(db.profiles), old(redirected))
    {
      match signUp {
        case SignUpError(m) =>
          err := Some(m);
        case NoUser =>
          err := Some(NoUserCreated);
        case Created(id) =>
          var e := db.UpsertProfile(ProfileRow(id, reg), profileFault);
          if e.Some? {
            err := e;
          } else {
            redirected := true;
          }
      }
      loading := false;
    }

    /** The form and the store after the `try … finally` part of `register`:
        a failed sign-up shows its message and writes nothing; a created user
        gets the profile row, and the page moves on only when that is stored. */
    predicate Enrolled(db: Database, reg: Registration, signUp: SignUp, profileFault: Option<string>,
                       profiles0: map<string, Profile>, redirected0: bool)
      reads this, db
    {
      && !loading
      && (signUp.SignUpError? ==> err == Some(signUp.message) && db.profiles == profiles0 && redirected == redirected0)
      && (signUp.NoUser? ==> err == Some(NoUserCreated) && db.profiles == profiles0 && redirected == redirected0)
      && (signUp.Created? && profileFault.Some? ==>
            && err == profileFault && redirected == redirected0
            && db.profiles == profiles0)
      && (signUp.Created? && profileFault.None? ==>
            && err.None? && redirected && db.profiles == profiles0[signUp.userId := ProfileRow(signUp.userId, reg)])
    }
  }
}
