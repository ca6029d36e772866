/** The couriers' board (`/comenzi`): the open orders, chat and call links
    that only a courier with a valid PIN gets, and an accept that writes the
    order whatever its status. */
module OrdersBoard {
  import opened Wrappers
  import opened Text
  import opened Tables
  import HomePage
  import OrderRequestPage

  /** The board's copy of the never-failing `normalizePhone`. */
  function LinkNumber(raw: string): string {
    var cleaned := DigitsAndPlus(Trim(raw));
    var cleaned := if StartsWith(cleaned, "07") then "+4" + cleaned else cleaned;
    var cleaned := if StartsWith(cleaned, "0040") then "+40" + cleaned[4..] else cleaned;
    if StartsWith(cleaned, "40") && !StartsWith(cleaned, "+") then "+" + cleaned else cleaned
  }

  /** The board's copies of `buildWhatsAppLink` and `buildSmsLink`; `enc`
      stands for `encodeURIComponent`. */
  function WhatsAppLink(phone: string, text: string, enc: string -> string): string {
    "https://wa.me/" + RemoveFirstPlus(LinkNumber(phone)) + "?text=" + enc(text)
  }

  function SmsLink(phone: string, text: string, enc: string -> string): string {
    "sms:" + LinkNumber(phone) + "?&body=" + enc(text)
  }

  /** The copies build the same numbers and links as the home page's. */
  lemma SameAsHome(phone: string, text: string, enc: string -> string)
    ensures LinkNumber(phone) == HomePage.LinkNumber(phone)
    ensures WhatsAppLink(phone, text, enc) == HomePage.WhatsAppLink(phone, text, enc)
    ensures SmsLink(phone, text, enc) == HomePage.SmsLink(phone, text, enc)
  {
  }

  /** The call link of an order: `tel:` and the number, an absent phone
      giving the empty number. */
  function TelLink(phone: Option<string>): (r: string)
    ensures StartsWith(r, "tel:") && OrderRequestPage.AllDigitsOrPlus(r[4..])
    ensures r[4..] == HomePage.LinkNumber(phone.GetOr(""))
  {
    HomePage.LinkNumberForm(phone.GetOr(""));
    assert ("tel:" + LinkNumber(phone.GetOr("")))[4..] == LinkNumber(phone.GetOr(""));
    "tel:" + LinkNumber(phone.GetOr(""))
  }

  /** The chat's opening message for an order: `${o.what}` in a template
      literal, which writes a null `what` as the text `null`. */
  function Greeting(what: Option<string>): string {
    "Salut! Am văzut cererea ta pe amvenit.ro: \"" + Interpolated(what) + "\". Sunt disponibil să ajut."
  }

  /** The greeting quotes the order's `what`: two greetings are equal exactly
      when the quoted texts are. */
  lemma GreetingInjective(a: Option<string>, b: Option<string>)
    ensures Greeting(a) == Greeting(b) <==> Interpolated(a) == Interpolated(b)
  {
    var x, y := Interpolated(a), Interpolated(b);
    var p, s := "Salut! Am văzut cererea ta pe amvenit.ro: \"", "\". Sunt disponibil să ajut.";
    assert Greeting(a) == p + x + s && Greeting(b) == p + y + s;
    if Greeting(a) == Greeting(b) {
      assert |x| == |y|;
      assert x == (p + x + s)[|p|..|p| + |x|];
      assert y == (p + y + s)[|p|..|p| + |y|];
    }
  }

  /** A null `what` and the text `null` open the chat with the same message. */
  lemma NullWhatGreeting()
    ensures Greeting(None) == Greeting(Some("null"))
    ensures forall w :: Greeting(Some(w)) == Greeting(None) <==> w == "null"
  {
    forall w
      ensures Greeting(Some(w)) == Greeting(None) <==> w == "null"
    {
      GreetingInjective(Some(w), None);
    }
  }

  const InvalidPin := "PIN invalid."

  /** What `validatePin(p)` answers: a blank PIN is refused without a lookup;
      otherwise the lookup must give a row, which `.maybeSingle()` does only
      for exactly one active courier with that PIN and no store error. */
  ghost predicate PinValid(couriers: map<string, Courier>, p: string, fault: Option<string>) {
    Trim(p) != "" && PinLookup(couriers, Trim(p), fault).Found?
  }

  /** A PIN is valid exactly when, trimmed, it is not blank and exactly one
      active courier has it; a store error makes every PIN invalid. */
  lemma PinValidExactly(couriers: map<string, Courier>, p: string, fault: Option<string>)
    ensures fault.Some? ==> !PinValid(couriers, p, fault)
    ensures fault.None? ==>
              (PinValid(couriers, p, fault) <==> Trim(p) != "" && |ActiveWithPin(couriers, Trim(p))| == 1)
  {
  }

  /** `validatePin`. */
  method ValidatePin(db: Database, p: string, fault: Option<string>) returns (ok: bool)
    ensures ok == PinValid(db.couriers, p, fault)
    ensures ok ==> exists ph :: ph in db.couriers && db.couriers[ph].active && db.couriers[ph].pin == Trim(p)
  {
    var cleaned := Trim(p);
    if cleaned == "" {
      return false;
    }
    var data := db.FindActiveByPin(cleaned, fault);
    ok := data.Found?;
  }

  /** `acceptOrder` filters by id only. */
  predicate AnyStatus(o: Order) { true }

  /** The columns `acceptOrder` writes: status `completed` and the time. */
  function CompletePatch(now: string): Order -> Order {
    (o: Order) => o.(status := Some("completed"), acceptedAt := Some(now))
  }

  /** The board's accept overwrites whatever status the order has, and keeps
      its earlier `accepted_by_*` columns. */
  lemma AcceptOverwrites(orders: map<string, Order>, id: string, now: string)
    requires id in orders
    ensures var (after, matched) := UpdateWhere(orders, id, AnyStatus, CompletePatch(now));
            && matched
            && after[id].status == Some("completed") && after[id].acceptedAt == Some(now)
            && after[id].acceptedByName == orders[id].acceptedByName
            && after[id].acceptedByPhone == orders[id].acceptedByPhone
  {
  }

  /** Where the two accepts differ: an order already cancelled (or taken) is
      left alone by the home page's guarded accept, and overwritten as
      `completed` by the board's. */
  lemma AcceptsDiverge(orders: map<string, Order>, id: string, c: Courier, now: string)
    requires id in orders && orders[id].status == Some("cancelled")
    ensures UpdateWhere(orders, id, HomePage.StillOpen, HomePage.AcceptPatch(c, now)) == (orders, false)
    ensures UpdateWhere(orders, id, AnyStatus, CompletePatch(now)).0[id].status == Some("completed")
  {
  }

  /** The board's lists, as on the home page. */
  predicate ListedActive(o: Order) { o.status.GetOr("active") == "active" }

  predicate ListedCompleted(o: Order) { o.status == Some("completed") }

  lemma SameListsAsHome(o: Order)
    ensures ListedActive(o) == HomePage.ListedActive(o)
    ensures ListedCompleted(o) == HomePage.ListedCompleted(o)
  {
  }

  class Board {
    /** The validated PIN, and whether one is held and valid. */
    var pin: string
    var hasPin: bool
    var pinOk: bool
    var acceptOpen: bool
    var acceptTarget: Option<Order>
    var pinInput: string
    var pinErr: Option<string>
    var chatOpen: bool
    var chatPhone: string
    var chatText: string
    var chatTitle: string

    constructor ()
      ensures pin == "" && !hasPin && !pinOk && !acceptOpen && acceptTarget.None?
      ensures pinInput == "" && pinErr.None?
      ensures !chatOpen && chatPhone == "" && chatText == "" && chatTitle == ""
    {
      pin, hasPin, pinOk := "", false, false;
      acceptOpen, acceptTarget, pinInput, pinErr := false, None, "", None;
      chatOpen, chatPhone, chatText, chatTitle := false, "", "", "";
    }

    /** `openChat`: an order without a phone opens nothing. */
    method OpenChat(o: Order)
      modifies this`chatOpen, this`chatPhone, this`chatText, this`chatTitle
      ensures !Truthy(o.phone) ==> unchanged(this)
      ensures Truthy(o.phone) ==>
                chatOpen && chatPhone == o.phone.value && chatTitle == o.whoWhere.GetOr("") && chatText == Greeting(o.what)
    {
      if !Truthy(o.phone) {
        return;
      }
      chatPhone, chatTitle, chatText, chatOpen := o.phone.value, o.whoWhere.GetOr(""), Greeting(o.what), true;
    }

    /** `openAccept`: both of its branches do the same. */
    method OpenAccept(o: Order)
      modifies this`acceptTarget, this`pinErr, this`acceptOpen
      ensures acceptTarget == Some(o) && pinErr.None? && acceptOpen
    {
      if pinOk {
        acceptTarget, pinErr, acceptOpen := Some(o), None, true;
        return;
      }
      acceptTarget, pinErr, acceptOpen := Some(o), None, true;
    }

    /** The Chat button: the chat with a valid PIN, the PIN modal without. */
    method ChatPressed(o: Order)
      modifies this`chatOpen, this`chatPhone, this`chatText, this`chatTitle,
               this`acceptTarget, this`pinErr, this`acceptOpen
      ensures pinOk ==> unchanged(`acceptTarget, `pinErr, `acceptOpen)
      ensures pinOk && !Truthy(o.phone) ==> unchanged(`chatOpen, `chatPhone, `chatText, `chatTitle)
      ensures pinOk && Truthy(o.phone) ==>
                chatOpen && chatPhone == o.phone.value && chatTitle == o.whoWhere.GetOr("") && chatText == Greeting(o.what)
      ensures !pinOk ==>
                && unchanged(`chatOpen, `chatPhone, `chatText, `chatTitle)
                && acceptOpen && acceptTarget == Some(o) && pinErr.None?
    {
      if pinOk {
        OpenChat(o);
      } else {
        OpenAccept(o);
      }
    }

    /** The Call control: a `tel:` link with a valid PIN, otherwise a button
        that opens the PIN modal (`None`). */
    function CallLink(o: Order): (r: Option<string>)
      reads this
      ensures r.Some? <==> pinOk
      ensures r.Some? ==> r.value == "tel:" + LinkNumber(o.phone.GetOr(""))
    {
      if pinOk then Some(TelLink(o.phone)) else None
    }

    /** The "enter PIN" button, `requirePinThen(() => {})`. */
    method RequirePin()
      modifies this`pinErr, this`pinInput, this`acceptTarget, this`acceptOpen
      ensures pinOk ==> unchanged(this)
      ensures !pinOk ==> pinErr.None? && pinInput == "" && acceptTarget.None? && acceptOpen
    {
      if pinOk {
        return;
      }
      pinErr, pinInput, acceptTarget, acceptOpen := None, "", None, true;
    }

    /** The modal's cancel button. */
    method Dismiss()
      modifies this`acceptOpen, this`acceptTarget
      ensures !acceptOpen && acceptTarget.None?
    {
      acceptOpen, acceptTarget := false, None;
    }

    /** `acceptOrder`: the store's error is not looked at. */
    method AcceptOrder(db: Database, o: Order, now: string, fault: Option<string>)
      modifies db`orders, this`acceptOpen, this`acceptTarget
      ensures db.orders == if fault.None? then UpdateWhere(old(db.orders), o.id, AnyStatus, CompletePatch(now)).0
                           else old(db.orders)
      ensures !acceptOpen && acceptTarget.None?
    {
      var _, _ := db.UpdateOrder(o.id, AnyStatus, CompletePatch(now), fault);
      acceptOpen, acceptTarget := false, None;
    }

    /** The modal's confirm button: with an invalid PIN only the error shows;
        with a valid one the PIN is kept and the selected order, if any, is
        accepted, or else the modal closes. */
    method Confirm(db: Database, lookupFault: Option<string>, now: string, updateFault: Option<string>)
      modifies this, db`orders
      ensures !PinValid(db.couriers, old(pinInput), lookupFault) ==>
                && pinErr == Some(InvalidPin) && db.orders == old(db.orders)
                && unchanged(`pin, `hasPin, `pinOk, `acceptOpen, `acceptTarget)
      ensures PinValid(db.couriers, old(pinInput), lookupFault) ==>
                && pin == Trim(old(pinInput)) && hasPin && pinOk && !acceptOpen && acceptTarget.None?
                && pinErr == old(pinErr)
                && db.orders == if old(acceptTarget).Some? && updateFault.None?
                                then UpdateWhere(old(db.orders), old(acceptTarget).value.id, AnyStatus, CompletePatch(now)).0
                                else old(db.orders)
      ensures unchanged(`pinInput, `chatOpen, `chatPhone, `chatText, `chatTitle)
    {
      var ok := ValidatePin(db, pinInput, lookupFault);
      if !ok {
        pinErr := Some(InvalidPin);
        return;
      }
      pin, hasPin, pinOk := Trim(pinInput), true, true;
      if acceptTarget.Some? {
        AcceptOrder(db, acceptTarget.value, now, updateFault);
      } else {
        acceptOpen := false;
      }
    }
  }
}
