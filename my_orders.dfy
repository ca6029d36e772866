/** "My orders" (`/comenzile-mele`): a user's orders in three lists by
    status, and the two transitions the page offers, cancel and delivered,
    each written with a guard on the owner and the status. */
module MyOrdersPage {
  import opened Wrappers
  import opened Text
  import opened Tables
  import opened Listing

  /** The status as the page compares it: `(status || "").toLowerCase()`. */
  function Lowered(status: Option<string>): string {
    ToLower(status.GetOr(""))
  }

  /** `statusLabel`. */
  function StatusLabel(status: Option<string>): string {
    var s := Lowered(status);
    if s == "active" then "Comandă activă"
    else if s == "accepted" then "Comandă acceptată"
    else if s == "completed" then "Comandă finalizată"
    else if s == "cancelled" then "Comandă anulată"
    else if status.None? || status.value == "" then "-"
    else status.value
  }

  /** The labels of the four known statuses. */
  const Labels: map<string, string> := map[
    "active" := "Comandă activă",
    "accepted" := "Comandă acceptată",
    "completed" := "Comandă finalizată",
    "cancelled" := "Comandă anulată"]

  /** A known status, in any letter case, gets its label; an empty one gets
      `-`; any other is shown as it was written. */
  lemma LabelByTable(status: Option<string>)
    ensures Lowered(status) in Labels ==> StatusLabel(status) == Labels[Lowered(status)]
    ensures Lowered(status) !in Labels && status.GetOr("") == "" ==> StatusLabel(status) == "-"
    ensures Lowered(status) !in Labels && status.GetOr("") != "" ==> StatusLabel(status) == status.value
  {
  }

  /** The label depends on the letter case of a known status not at all. */
  lemma LabelIgnoresCase(a: string, b: string)
    requires ToLower(a) == ToLower(b) && ToLower(a) in Labels
    ensures StatusLabel(Some(a)) == StatusLabel(Some(b))
  {
  }

  lemma LabelExamples()
    ensures StatusLabel(Some("ACTIVE")) == "Comandă activă"
    ensures StatusLabel(None) == "-"
    ensures StatusLabel(Some("pending")) == "pending"
  {
    assert ToLower("ACTIVE") == "active";
    assert ToLower("pending") == "pending";
  }

  predicate IsAccepted(o: Order) { Lowered(o.status) == "accepted" }
  predicate IsCompleted(o: Order) { Lowered(o.status) == "completed" }
  predicate IsCancelled(o: Order) { Lowered(o.status) == "cancelled" }

  function CreatedAt(o: Order): int { o.createdAt }

  /** The three lists: the rows of one lowered status, newest first. */
  function AcceptedRows(rows: seq<Order>): seq<Order> { SortNewestFirst(Filter(rows, IsAccepted), CreatedAt) }
  function CompletedRows(rows: seq<Order>): seq<Order> { SortNewestFirst(Filter(rows, IsCompleted), CreatedAt) }
  function CancelledRows(rows: seq<Order>): seq<Order> { SortNewestFirst(Filter(rows, IsCancelled), CreatedAt) }

  lemma InSorted(s: seq<Order>, x: Order)
    ensures x in SortNewestFirst(s, CreatedAt) <==> x in s
  {
    var r := SortNewestFirst(s, CreatedAt);
    assert x in r <==> x in multiset(r);
    assert x in s <==> x in multiset(s);
  }

  /** Each list holds every row of its status, as often as it occurs, and
      nothing else, newest first; the lists share no row, and a row whose
      status is `active` (or anything else) is in none of them. */
  lemma Buckets(rows: seq<Order>, x: Order)
    ensures NewestFirst(AcceptedRows(rows), CreatedAt)
    ensures NewestFirst(CompletedRows(rows), CreatedAt)
    ensures NewestFirst(CancelledRows(rows), CreatedAt)
    ensures multiset(AcceptedRows(rows)) == multiset(Filter(rows, IsAccepted))
    ensures multiset(CompletedRows(rows)) == multiset(Filter(rows, IsCompleted))
    ensures multiset(CancelledRows(rows)) == multiset(Filter(rows, IsCancelled))
    ensures x in AcceptedRows(rows) <==> x in rows && IsAccepted(x)
    ensures x in CompletedRows(rows) <==> x in rows && IsCompleted(x)
    ensures x in CancelledRows(rows) <==> x in rows && IsCancelled(x)
    ensures !(x in AcceptedRows(rows) && x in CompletedRows(rows))
    ensures !(x in AcceptedRows(rows) && x in CancelledRows(rows))
    ensures !(x in CompletedRows(rows) && x in CancelledRows(rows))
    ensures Lowered(x.status) !in {"accepted", "completed", "cancelled"} ==>
              x !in AcceptedRows(rows) && x !in CompletedRows(rows) && x !in CancelledRows(rows)
  {
    InSorted(Filter(rows, IsAccepted), x);
    InSorted(Filter(rows, IsCompleted), x);
    InSorted(Filter(rows, IsCancelled), x);
  }

  /** `canCancel` of an order card. */
  predicate CanCancel(o: Order, userId: Option<string>) {
    o.acceptedById == userId && Lowered(o.status) == "accepted"
  }

  /** The card's offer and the write that follows it. The card offers
      cancelling only to the courier who accepted the order, who then cancels
      as courier; that courier's guard matches exactly when the status is
      `accepted` as written, so an order whose status reads `Accepted` is
      offered and the cancel matches nothing. A client who is not also the
      courier never gets the offer. */
  lemma CanCancelExactly(o: Order, uid: string)
    ensures CanCancel(o, Some(uid)) <==> o.acceptedById == Some(uid) && IsAccepted(o)
    ensures CanCancel(o, Some(uid)) ==>
              CancellerOf(o, uid) == AsCourier && (CancelGuard(AsCourier, uid)(o) <==> o.status == Some("accepted"))
    ensures CancelGuard(AsCourier, uid)(o) ==> CanCancel(o, Some(uid))
    ensures o.acceptedById == Some(uid) && o.status == Some("Accepted") ==>
              CanCancel(o, Some(uid)) && !CancelGuard(AsCourier, uid)(o)
    ensures o.clientId == Some(uid) && o.acceptedById != Some(uid) ==> !CanCancel(o, Some(uid))
  {
    assert ToLower("Accepted") == "accepted";
    assert ToLower("accepted") == "accepted";
  }

  /** Who is cancelling: the accepting courier wins over the client. */
  datatype Canceller = AsCourier | AsClient | Stranger

  function CancellerOf(o: Order, uid: string): (c: Canceller)
    ensures c == AsCourier <==> o.acceptedById == Some(uid)
    ensures c == AsClient <==> o.clientId == Some(uid) && o.acceptedById != Some(uid)
  {
    if o.acceptedById == Some(uid) then AsCourier
    else if o.clientId == Some(uid) then AsClient
    else Stranger
  }

  /** The further filters of the cancel: a courier's only on an order it
      accepted that is `accepted`, a client's only on its own `active` order. */
  function CancelGuard(who: Canceller, uid: string): Order -> bool {
    if who == AsCourier then (o: Order) => o.acceptedById == Some(uid) && o.status == Some("accepted")
    else (o: Order) => o.clientId == Some(uid) && o.status == Some("active")
  }

  /** The columns the cancel writes. */
  function CancelPatch(who: Canceller, now: string, note: string): Order -> Order {
    (o: Order) => o.(status := Some("cancelled"), cancelledAt := Some(now),
                     cancelReason := Some(if who == AsCourier then "Anulare livrator" else "Anulare client"),
                     cancelNote := if who == AsCourier then Some(Trim(note)) else None)
  }

  /** A cancel changes the order only when its guard holds, and then marks
      it cancelled with the time, the reason and the courier's trimmed note
      (none for a client). Every other row is left as it was. */
  lemma CancelWrites(orders: map<string, Order>, id: string, who: Canceller, uid: string, now: string, note: string)
    requires who != Stranger
    ensures var (after, matched) := UpdateWhere(orders, id, CancelGuard(who, uid), CancelPatch(who, now, note));
            && (!matched ==> after == orders)
            && (matched ==>
                  && after.Keys == orders.Keys
                  && (forall k :: k in orders && k != id ==> after[k] == orders[k])
                  && after[id].status == Some("cancelled") && after[id].cancelledAt == Some(now)
                  && (who == AsCourier ==>
                        && orders[id].acceptedById == Some(uid) && orders[id].status == Some("accepted")
                        && after[id].cancelReason == Some("Anulare livrator") && after[id].cancelNote == Some(Trim(note)))
                  && (who == AsClient ==>
                        && orders[id].clientId == Some(uid) && orders[id].status == Some("active")
                        && after[id].cancelReason == Some("Anulare client") && after[id].cancelNote.None?))
  {
    var (after, matched) := UpdateWhere(orders, id, CancelGuard(who, uid), CancelPatch(who, now, note));
    if !matched {
      assert after == orders;
    }
  }

  /** A user who is both client and courier of an `active` order cancels as
      the courier, and that cancel matches nothing. */
  lemma CourierBranchWins(orders: map<string, Order>, id: string, uid: string, now: string, note: string)
    requires id in orders && orders[id].clientId == Some(uid) && orders[id].acceptedById == Some(uid)
    requires orders[id].status == Some("active")
    ensures CancellerOf(orders[id], uid) == AsCourier
    ensures UpdateWhere(orders, id, CancelGuard(AsCourier, uid), CancelPatch(AsCourier, now, note)) == (orders, false)
  {
  }

  /** The delivered write: only by the accepting courier on an `accepted` order. */
  function DeliverGuard(uid: string): Order -> bool {
    (o: Order) => o.acceptedById == Some(uid) && o.status == Some("accepted")
  }

  function DeliverPatch(): Order -> Order {
    (o: Order) => o.(status := Some("completed"))
  }

  /** The delivered write changes only the status, to `completed`, and only
      of a row that passes its guard. */
  lemma DeliverWrites(orders: map<string, Order>, id: string, uid: string)
    ensures var (after, matched) := UpdateWhere(orders, id, DeliverGuard(uid), DeliverPatch());
            && (matched <==> id in orders && orders[id].acceptedById == Some(uid) && orders[id].status == Some("accepted"))
            && (!matched ==> after == orders)
            && (matched ==> after == orders[id := orders[id].(status := Some("completed"))])
  {
    var (after, matched) := UpdateWhere(orders, id, DeliverGuard(uid), DeliverPatch());
    if !matched {
      assert after == orders;
    }
  }

  /** The page checks the status case-insensitively and the store exactly: an
      order whose status reads `Accepted` passes the page's check, and the
      write then matches nothing. */
  lemma DeliverCaseMismatch(orders: map<string, Order>, id: string, uid: string)
    requires id in orders && orders[id].acceptedById == Some(uid) && orders[id].status == Some("Accepted")
    ensures Lowered(orders[id].status) == "accepted"
    ensures UpdateWhere(orders, id, DeliverGuard(uid), DeliverPatch()) == (orders, false)
  {
    assert ToLower("Accepted") == "accepted";
  }

  /** The courier's note is measured by `.length`, in UTF-16 code units: two
      emoji (four units) are long enough, two ASCII letters are not. */
  lemma NoteLengthInCodeUnits()
    ensures var note := "\U{1F44D}\U{1F44D}"; |note| == 2 && Utf16Length(Trim(note)) >= 3
    ensures Utf16Length(Trim(" ok ")) < 3
  {
    var note := "\U{1F44D}\U{1F44D}";
    TrimNoSpace(note);
    assert note[1..] == "\U{1F44D}";
    TrimNoSpace("ok");
    assert Trim(" ok ") == "ok" by {
      assert TrimStart(" ok ") == TrimStart("ok ") == "ok " by { assert " ok "[1..] == "ok "; }
      assert TrimEnd("ok ") == TrimEnd("ok") == "ok" by { assert "ok "[..2] == "ok"; }
    }
    assert "ok"[1..] == "k";
  }

  const NotAllowed := "Nu ai dreptul să anulezi această comandă."
  const NeedReason := "Te rog scrie motivul anulării (minim 3 caractere)."
  const CannotDeliver := "Nu poți marca livrarea la comanda asta."

  /** Which of the lower lists is unfolded. */
  datatype Accordion = NoSection | CompletedSection | CancelledSection

  class MyOrders {
    var err: Option<string>
    var confirmOpen: bool
    var selected: Option<Order>
    var note: string
    var cancelBusy: bool
    var open: Accordion
    var deliverBusyId: Option<string>

    constructor ()
      ensures err.None? && !confirmOpen && selected.None? && note == "" && !cancelBusy
      ensures open == NoSection && deliverBusyId.None?
    {
      err, confirmOpen, selected, note, cancelBusy := None, false, None, "", false;
      open, deliverBusyId := NoSection, None;
    }

    /** `startCancel`. */
    method StartCancel(o: Order)
      modifies this`selected, this`note, this`confirmOpen, this`err
      ensures selected == Some(o) && note == "" && confirmOpen && err.None?
    {
      selected, note, confirmOpen, err := Some(o), "", true, None;
    }

    /** `doCancel` for the signed-in `userId` (`None` when nobody is; an empty
        id counts as nobody, as `!userId` does). */
    method DoCancel(db: Database, userId: Option<string>, now: string, fault: Option<string>)
      modifies this, db`orders
      ensures old(!Truthy(userId) || selected.None?) ==> unchanged(this) && db.orders == old(db.orders)
      ensures Truthy(userId) && old(selected).Some? ==>
                var who := CancellerOf(old(selected).value, userId.value);
                && (who == Stranger ==>
                      && err == Some(NotAllowed) && !confirmOpen && db.orders == old(db.orders)
                      && unchanged(`selected, `note, `cancelBusy, `open, `deliverBusyId))
                && (who == AsCourier && Utf16Length(Trim(old(note))) < 3 ==>
                      && err == Some(NeedReason) && db.orders == old(db.orders)
                      && unchanged(`confirmOpen, `selected, `note, `cancelBusy, `open, `deliverBusyId))
                && (who == AsClient || (who == AsCourier && Utf16Length(Trim(old(note))) >= 3) ==>
                      Cancelled(db, old(selected).value.id, who, userId.value, now, old(note), fault,
                                old(db.orders), old(confirmOpen), old(selected), old(open)))
      ensures unchanged(`deliverBusyId)
    {
      if !Truthy(userId) || selected.None? {
        return;
      }
      var uid, o := userId.value, selected.value;
      var who := CancellerOf(o, uid);
      if who == Stranger {
        err, confirmOpen := Some(NotAllowed), false;
        return;
      }
      if who == AsCourier && Utf16Length(Trim(note)) < 3 {
        err := Some(NeedReason);
        return;
      }
      cancelBusy, err := true, None;
      Cancel(db, o.id, who, uid, now, fault);
    }

    /** The `try … finally` part of `doCancel`. */
    method Cancel(db: Database, id: string, who: Canceller, uid: string, now: string, fault: Option<string>)
      requires err.None?
      modifies this, db`orders
      ensures Cancelled(db, id, who, uid, now, old(note), fault, old(db.orders), old(confirmOpen), old(selected), old(open))
      ensures unchanged(`deliverBusyId)
    {
      var _, e := db.UpdateOrder(id, CancelGuard(who, uid), CancelPatch(who, now, note), fault);
      if e.Some? {
        err := e;
      } else {
        confirmOpen, selected, note, open := false, None, "", CancelledSection;
      }
      cancelBusy := false;
    }

    /** The page and the orders after the cancel's write: the guarded write
        itself, then on a store error its message with the dialog still open,
        and otherwise the dialog closed and the cancelled list unfolded,
        whether or not a row matched. */
    predicate Cancelled(db: Database, id: string, who: Canceller, uid: string, now: string, note0: string,
                        fault: Option<string>, orders0: map<string, Order>,
                        confirmOpen0: bool, selected0: Option<Order>, open0: Accordion)
      reads this, db
    {
      && !cancelBusy
      && db.orders == (if fault.None? then UpdateWhere(orders0, id, CancelGuard(who, uid), CancelPatch(who, now, note0)).0
                       else orders0)
      && (fault.Some? ==>
            err == fault && confirmOpen == confirmOpen0 && selected == selected0 && note == note0 && open == open0)
      && (fault.None? ==>
            err.None? && !confirmOpen && selected.None? && note == "" && open == CancelledSection)
    }

    /** `markDelivered`; `confirmed` is the answer to `window.confirm`. */
    method MarkDelivered(db: Database, userId: Option<string>, o: Order, confirmed: bool, fault: Option<string>)
      modifies this`err, this`deliverBusyId, this`open, db`orders
      ensures !Truthy(userId) ==> unchanged(this) && db.orders == old(db.orders)
      ensures Truthy(userId) && !(o.acceptedById == userId && IsAccepted(o)) ==>
                err == Some(CannotDeliver) && db.orders == old(db.orders) && unchanged(`deliverBusyId, `open)
      ensures Truthy(userId) && o.acceptedById == userId && IsAccepted(o) && !confirmed ==>
                unchanged(this) && db.orders == old(db.orders)
      ensures Truthy(userId) && o.acceptedById == userId && IsAccepted(o) && confirmed ==>
                && deliverBusyId.None?
                && db.orders == (if fault.None? then UpdateWhere(old(db.orders), o.id, DeliverGuard(userId.value), DeliverPatch()).0
                                 else old(db.orders))
                && (fault.Some? ==> err == fault && open == old(open))
                && (fault.None? ==> err.None? && open == CompletedSection)
    {
      if !Truthy(userId) {
        return;
      }
      if !(o.acceptedById == userId && IsAccepted(o)) {
        err := Some(CannotDeliver);
        return;
      }
      if !confirmed {
        return;
      }
      deliverBusyId, err := Some(o.id), None;
      var _, e := db.UpdateOrder(o.id, DeliverGuard(userId.value), DeliverPatch(), fault);
      if e.Some? {
        err := e;
      } else {
        open := CompletedSection;
      }
      deliverBusyId := None;
    }
  }
}
