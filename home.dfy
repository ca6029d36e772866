/** The home page (`/`): the list of orders, the chat links built from an
    order's phone, and accepting an order with a courier's PIN. */
module HomePage {
  import opened Wrappers
  import opened Text
  import opened Tables
  import opened Listing
  import OrderRequestPage

  /** The page's `normalizePhone`: the order form's rewrites without the
      digit-count check, so it never fails. */
  function LinkNumber(raw: string): string {
    var cleaned := DigitsAndPlus(Trim(raw));
    var cleaned := if StartsWith(cleaned, "07") then "+4" + cleaned else cleaned;
    var cleaned := if StartsWith(cleaned, "0040") then "+40" + cleaned[4..] else cleaned;
    if StartsWith(cleaned, "40") && !StartsWith(cleaned, "+") then "+" + cleaned else cleaned
  }

  /** The order form's normaliser is this one followed by the check for ten
      digits: both apply the same `07`, `0040` and `40` rewrites. */
  lemma LenientIsLinkNumberChecked(raw: string)
    ensures LinkNumber(raw) == OrderRequestPage.Rewrite(DigitsAndPlus(Trim(raw)))
    ensures OrderRequestPage.NormalizePhone(raw)
         == if |Digits(LinkNumber(raw))| < 10 then None else Some(LinkNumber(raw))
  {
  }

  /** The link number holds only digits and `+`. */
  lemma LinkNumberForm(raw: string)
    ensures OrderRequestPage.AllDigitsOrPlus(LinkNumber(raw))
  {
    KeepPasses(Trim(raw), IsDigitOrPlus);
    OrderRequestPage.RewriteKeepsClass(DigitsAndPlus(Trim(raw)));
  }

  /** Normalising a link number again changes nothing. */
  lemma LinkNumberIdempotent(raw: string)
    ensures LinkNumber(LinkNumber(raw)) == LinkNumber(raw)
  {
    var x := LinkNumber(raw);
    LinkNumberForm(raw);
    TrimNoSpace(x);
    KeepAll(x, IsDigitOrPlus);
    OrderRequestPage.RewriteFixed(DigitsAndPlus(Trim(raw)));
  }

  /** `buildWhatsAppLink`; `enc` stands for `encodeURIComponent`. */
  function WhatsAppLink(phone: string, text: string, enc: string -> string): string {
    "https://wa.me/" + RemoveFirstPlus(LinkNumber(phone)) + "?text=" + enc(text)
  }

  /** `buildSmsLink`. */
  function SmsLink(phone: string, text: string, enc: string -> string): string {
    "sms:" + LinkNumber(phone) + "?&body=" + enc(text)
  }

  /** Removing the first `+` of a string of digits and at most one `+`
      leaves its digits. */
  lemma {:induction false} RemoveOnlyPlus(s: string)
    requires OrderRequestPage.AllDigitsOrPlus(s) && multiset(s)['+'] <= 1
    ensures RemoveFirstPlus(s) == Digits(s)
  {
    if s != [] {
      assert s == [s[0]] + s[1..];
      if s[0] == '+' {
        assert '+' !in s[1..];
        forall i | 0 <= i < |s[1..]| ensures IsDigit(s[1..][i]) {
          assert s[1..][i] == s[1 + i];
          assert s[1..][i] in s[1..];
        }
        KeepAll(s[1..], IsDigit);
      } else {
        RemoveOnlyPlus(s[1..]);
      }
    }
  }

  /** When the number holds at most one `+` (every spelling with a single
      leading `+` or none), the WhatsApp link carries exactly its digits. */
  lemma WhatsAppCarriesDigits(phone: string, text: string, enc: string -> string)
    requires multiset(LinkNumber(phone))['+'] <= 1
    ensures WhatsAppLink(phone, text, enc) == "https://wa.me/" + Digits(LinkNumber(phone)) + "?text=" + enc(text)
  {
    LinkNumberForm(phone);
    RemoveOnlyPlus(LinkNumber(phone));
  }

  /** The WhatsApp link carries the number's digits only, while the SMS link
      carries the number with its `+`; for a canonical `+40…` number that is
      `wa.me/40…` and `sms:+40…`. */
  lemma LinksForCanonical(t: string, text: string, enc: string -> string)
    requires AllDigits(t) && |t| >= 8
    ensures WhatsAppLink("+40" + t, text, enc) == "https://wa.me/" + ("40" + t) + "?text=" + enc(text)
    ensures SmsLink("+40" + t, text, enc) == "sms:" + ("+40" + t) + "?&body=" + enc(text)
  {
    var x := "+40" + t;
    CanonicalKept(t);
    assert x[0] == '+' && x[1..] == "40" + t;
  }

  /** A canonical `+40…` number is its own link number. */
  lemma CanonicalKept(t: string)
    requires AllDigits(t)
    ensures LinkNumber("+40" + t) == "+40" + t
  {
    var x := "+40" + t;
    assert OrderRequestPage.AllDigitsOrPlus(x) by {
      assert forall i :: 3 <= i < |x| ==> x[i] == t[i - 3];
    }
    TrimNoSpace(x);
    KeepAll(x, IsDigitOrPlus);
    assert x[..2][0] == '+';
  }

  /** The PIN modal's messages. */
  const TypePin := "Scrie PIN-ul."
  const WrongPin := "PIN greșit sau livrator neaprobat."
  const AlreadyTaken := "Comanda a fost deja acceptată de altcineva."
  const AcceptFailed := "Eroare la acceptare."
  const AcceptedNotice := "Comandă acceptată."

  /** `.in("status", [null, "active"])`: the orders the guarded accept may
      still write (a missing status counts as open). */
  predicate StillOpen(o: Order) {
    o.status.None? || o.status == Some("active")
  }

  /** The columns the accept writes: status `completed`, the time, and the
      courier's name and phone. */
  function AcceptPatch(c: Courier, now: string): Order -> Order {
    (o: Order) => o.(status := Some("completed"), acceptedAt := Some(now),
                     acceptedByName := Some(c.name), acceptedByPhone := Some(c.phone))
  }

  /** An accepted order is no longer open, so a second accept matches
      nothing and leaves the table as it was. */
  lemma SecondAcceptMatchesNothing(orders: map<string, Order>, id: string, c1: Courier, c2: Courier, t1: string, t2: string)
    ensures var (once, _) := UpdateWhere(orders, id, StillOpen, AcceptPatch(c1, t1));
            UpdateWhere(once, id, StillOpen, AcceptPatch(c2, t2)) == (once, false)
  {
  }

  /** `e?.message || "Eroare la acceptare."`. */
  function ErrorText(message: string): (r: string)
    ensures r != ""
    ensures message != "" ==> r == message
  {
    if message != "" then message else AcceptFailed
  }

  /** `(o.status ?? "active") === "active"`. */
  predicate ListedActive(o: Order) { o.status.GetOr("active") == "active" }

  /** `o.status === "completed"`. */
  predicate ListedCompleted(o: Order) { o.status == Some("completed") }

  /** The page's two lists. */
  function ActiveList(orders: seq<Order>): seq<Order> { Filter(orders, ListedActive) }

  function CompletedList(orders: seq<Order>): seq<Order> { Filter(orders, ListedCompleted) }

  /** A missing status is listed as active, `completed` only as completed, and
      any other status in neither list; no order is in both. */
  lemma ListsByStatus(orders: seq<Order>, o: Order)
    requires o in orders
    ensures o.status.None? ==> o in ActiveList(orders) && o !in CompletedList(orders)
    ensures o in ActiveList(orders) <==> o.status.None? || o.status == Some("active")
    ensures o in CompletedList(orders) <==> o.status == Some("completed")
    ensures !(o in ActiveList(orders) && o in CompletedList(orders))
  {
  }

  /** The orders listed as active are exactly those the accept can still write. */
  lemma ActiveMeansAcceptable(o: Order)
    ensures ListedActive(o) <==> StillOpen(o)
  {
  }

  /** The store delivers the orders newest first, and both lists keep that order. */
  lemma ListsNewestFirst(orders: seq<Order>)
    requires NewestFirst(orders, (o: Order) => o.createdAt)
    ensures NewestFirst(ActiveList(orders), (o: Order) => o.createdAt)
    ensures NewestFirst(CompletedList(orders), (o: Order) => o.createdAt)
  {
    FilterKeepsNewestFirst(orders, ListedActive, (o: Order) => o.createdAt);
    FilterKeepsNewestFirst(orders, ListedCompleted, (o: Order) => o.createdAt);
  }

  /** The accept modal's state. */
  class AcceptModal {
    var open: bool
    var pin: string
    var err: Option<string>
    var busy: bool
    var selected: Option<Order>
    /** The text of the last `alert`, if any. */
    var alerted: Option<string>

    constructor ()
      ensures !open && pin == "" && err.None? && !busy && selected.None? && alerted.None?
    {
      open, pin, err, busy, selected, alerted := false, "", None, false, None, None;
    }

    /** `openAccept`. */
    method OpenAccept(o: Order)
      modifies this
      ensures open && selected == Some(o) && pin == "" && err.None?
      ensures busy == old(busy) && alerted == old(alerted)
    {
      selected, pin, err, open := Some(o), "", None, true;
    }

    /** `closeAccept`. */
    method CloseAccept()
      modifies this
      ensures !open && selected.None? && pin == "" && err.None? && !busy
      ensures alerted == old(alerted)
    {
      open, selected, pin, err, busy := false, None, "", None, false;
    }

    /** `confirmAccept`. `lookupFault` and `updateFault` are the store's
        errors of the courier lookup and of the update, `now` the time written. */
    method ConfirmAccept(db: Database, lookupFault: Option<string>, updateFault: Option<string>, now: string)
      modifies this, db`orders
      ensures old(selected).None? ==> unchanged(this) && db.orders == old(db.orders)
      ensures old(selected).Some? && Trim(old(pin)) == "" ==>
                && err == Some(TypePin) && db.orders == old(db.orders)
                && unchanged(`open, `pin, `busy, `selected, `alerted)
      ensures old(selected).Some? && Trim(old(pin)) != "" ==>
                Tried(db, old(selected).value.id, PinLookup(db.couriers, Trim(old(pin)), lookupFault),
                      updateFault, now, old(db.orders), old(open), old(pin), old(selected), old(alerted))
    {
      if selected.None? {
        return;
      }
      var p := Trim(pin);
      if p == "" {
        err := Some(TypePin);
        return;
      }
      busy, err := true, None;
      var lookup := db.FindActiveByPin(p, lookupFault);
      Settle(db, selected.value.id, lookup, updateFault, now);
    }

    /** The part of `confirmAccept` after the courier lookup. */
    method Settle(db: Database, id: string, lookup: Lookup, updateFault: Option<string>, now: string)
      modifies this, db`orders
      ensures Tried(db, id, lookup, updateFault, now, old(db.orders), old(open), old(pin), old(selected), old(alerted))
    {
      match lookup {
        case LookupError(m) =>
          err, busy := Some(ErrorText(m)), false;
        case NotFound =>
          err, busy := Some(WrongPin), false;
        case Found(c) =>
          var matched, e := db.UpdateOrder(id, StillOpen, AcceptPatch(c, now), updateFault);
          if e.Some? {
            err, busy := Some(ErrorText(e.value)), false;
          } else if !matched {
            err, busy := Some(AlreadyTaken), false;
          } else {
            CloseAccept();
            alerted := Some(AcceptedNotice);
          }
      }
    }

    /** The modal and the orders after the lookup gave `lookup`: a failed or
        empty lookup shows its message and writes nothing; with a courier the
        order is written only while it is still open, and the modal closes
        only when it was. */
    predicate Tried(db: Database, id: string, lookup: Lookup, updateFault: Option<string>, now: string,
                    orders0: map<string, Order>, open0: bool, pin0: string, selected0: Option<Order>,
                    alerted0: Option<string>)
      reads this, db
    {
      var kept := !busy && open == open0 && pin == pin0 && selected == selected0 && alerted == alerted0;
      && (lookup.LookupError? ==> err == Some(ErrorText(lookup.message)) && db.orders == orders0 && kept)
      && (lookup.NotFound? ==> err == Some(WrongPin) && db.orders == orders0 && kept)
      && (lookup.Found? && updateFault.Some? ==>
            err == Some(ErrorText(updateFault.value)) && db.orders == orders0 && kept)
      && (lookup.Found? && updateFault.None? ==>
            && db.orders == UpdateWhere(orders0, id, StillOpen, AcceptPatch(lookup.courier, now)).0
            && (if id in orders0 && StillOpen(orders0[id])
                then !open && selected.None? && pin == "" && err.None? && !busy && alerted == Some(AcceptedNotice)
                else err == Some(AlreadyTaken) && kept))
    }
  }
}
