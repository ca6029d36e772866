/** An order's life across the pages: created by the order form, accepted on
    the home page or the board, cancelled or marked delivered on "my orders".
    Every write is one of the patches the pages define; this module relates
    them to each other. */
module Lifecycle {
  import opened Wrappers
  import opened Tables
  import OrderRequestPage
  import HomePage
  import OrdersBoard
  import opened MyOrdersPage

  /** No write of the core produces the status `accepted` or changes
      `accepted_by_id`: the order form inserts `active` with no courier, the
      two accepts write `completed`, the cancel `cancelled` and the delivered
      write `completed`. */
  lemma NoWriteAccepts(o: Order, c: Courier, now: string, who: Canceller, note: string,
                       id: string, t: int, what: string, address: string, urgent: bool, d: OrderRequestPage.Draft)
    ensures var placed := OrderRequestPage.NewOrder(id, t, what, address, urgent, d);
            placed.status == Some("active") && placed.acceptedById.None?
    ensures var p := HomePage.AcceptPatch(c, now)(o);
            p.status == Some("completed") && p.acceptedById == o.acceptedById
    ensures var p := OrdersBoard.CompletePatch(now)(o);
            p.status == Some("completed") && p.acceptedById == o.acceptedById
    ensures var p := CancelPatch(who, now, note)(o);
            p.status == Some("cancelled") && p.acceptedById == o.acceptedById
    ensures var p := DeliverPatch()(o);
            p.status == Some("completed") && p.acceptedById == o.acceptedById
  {
  }

  /** A freshly placed order is listed as active on the home page, can be
      accepted there, and only its client can cancel it (as the client). */
  lemma FreshOrder(orders: map<string, Order>, id: string, t: int, what: string, address: string, urgent: bool,
                   d: OrderRequestPage.Draft, uid: string, now: string, note: string)
    requires id !in orders
    ensures var o := OrderRequestPage.NewOrder(id, t, what, address, urgent, d);
            var after := orders[id := o];
            && HomePage.ListedActive(o) && HomePage.StillOpen(o)
            && CancellerOf(o, uid) == (if uid == d.clientId then AsClient else Stranger)
            && UpdateWhere(after, id, CancelGuard(AsClient, d.clientId), CancelPatch(AsClient, now, note)).1
            && !UpdateWhere(after, id, DeliverGuard(uid), DeliverPatch()).1
  {
  }

  /** Once the home page has accepted an order, it is listed as completed
      on every page; "my orders" offers no cancel for it, and neither a
      cancel nor the delivered write matches it any more, whoever asks. */
  lemma AcceptedOnHome(orders: map<string, Order>, id: string, c: Courier, now: string, uid: string,
                       who: Canceller, t: string, note: string)
    requires id in orders && orders[id].acceptedById.None? && HomePage.StillOpen(orders[id])
    ensures var (after, matched) := UpdateWhere(orders, id, HomePage.StillOpen, HomePage.AcceptPatch(c, now));
            && matched
            && HomePage.ListedCompleted(after[id]) && !HomePage.ListedActive(after[id]) && IsCompleted(after[id])
            && !CanCancel(after[id], Some(uid))
            && CancellerOf(after[id], uid) != AsCourier
            && UpdateWhere(after, id, CancelGuard(who, uid), CancelPatch(who, t, note)) == (after, false)
            && UpdateWhere(after, id, DeliverGuard(uid), DeliverPatch()) == (after, false)
  {
    var (after, matched) := UpdateWhere(orders, id, HomePage.StillOpen, HomePage.AcceptPatch(c, now));
    assert after[id].status == Some("completed");
    assert Lowered(after[id].status) == "completed" by {
      assert Text.ToLower("completed") == "completed";
    }
  }

  /** The board's unguarded accept even revives a cancelled order: it is
      then listed as completed, with its cancel columns kept. */
  lemma BoardRevivesCancelled(orders: map<string, Order>, id: string, now: string)
    requires id in orders && orders[id].status == Some("cancelled")
    ensures var after := UpdateWhere(orders, id, OrdersBoard.AnyStatus, OrdersBoard.CompletePatch(now)).0;
            && OrdersBoard.ListedCompleted(after[id])
            && after[id].cancelledAt == orders[id].cancelledAt
            && after[id].cancelReason == orders[id].cancelReason
  {
  }
}
