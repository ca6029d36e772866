/** `GET /api/admin/orders`: behind a plain comparison with the admin key,
    the active orders whose phone is not verified, newest first. */
module AdminOrderListRoute {
  import opened Wrappers
  import opened Tables
  import opened Listing
  import AdminApproveRoute

  /** `key !== process.env.ADMIN_KEY` is false: the order routes compare the
      key with the setting, and an unset setting equals no key. */
  predicate KeyMatches(key: string, adminKey: Option<string>) {
    adminKey == Some(key)
  }

  /** With `ADMIN_KEY` unset every key is refused. When it is set to the
      empty string, the empty key passes here, while `mustAdmin` of the
      courier routes refuses every key. */
  lemma KeyChecksDiffer(key: string, adminKey: Option<string>)
    ensures adminKey.None? ==> !KeyMatches(key, adminKey)
    ensures KeyMatches("", Some("")) && !AdminApproveRoute.MustAdmin(Some(""), Some(""))
    ensures key != "" ==> (KeyMatches(key, adminKey) <==> AdminApproveRoute.MustAdmin(Some(key), adminKey))
  {
  }

  predicate Pending(o: Order) { o.status == Some("active") && !o.phoneVerified }

  function OrderTime(o: Order): int { o.createdAt }

  /** `GET`; `key` is the query parameter (`None` when absent), `fault` the
      store's error of the select. */
  ghost function ListPending(orders: map<string, Order>, key: Option<string>, adminKey: Option<string>,
                             fault: Option<string>): (r: Reply<seq<Order>>)
    ensures !KeyMatches(key.GetOr(""), adminKey) ==> r == Fail(401, AdminApproveRoute.Unauthorized)
    ensures KeyMatches(key.GetOr(""), adminKey) && fault.Some? ==> r == Fail(500, fault.value)
    ensures r.Ok? <==> KeyMatches(key.GetOr(""), adminKey) && fault.None?
    ensures r.Ok? ==> NewestFirst(r.value, OrderTime)
    ensures r.Ok? ==> forall o :: o in r.value ==> o in orders.Values && o.status == Some("active") && !o.phoneVerified
    ensures r.Ok? ==> forall k :: k in orders && Pending(orders[k]) ==> orders[k] in r.value
    ensures r.Ok? ==> forall o :: multiset(r.value)[o] == if Pending(o) then |KeysHolding(orders, o)| else 0
  {
    if !KeyMatches(key.GetOr(""), adminKey) then Fail(401, AdminApproveRoute.Unauthorized)
    else if fault.Some? then Fail(500, fault.value)
    else Ok(SelectNewestFirst(orders, Pending, OrderTime))
  }

  /** A verified or non-active order is never listed. */
  lemma OnlyPendingListed(orders: map<string, Order>, key: Option<string>, adminKey: Option<string>, o: Order)
    requires o.phoneVerified || o.status != Some("active")
    ensures var r := ListPending(orders, key, adminKey, None);
            r.Ok? ==> o !in r.value
  {
  }

  function OrderId(o: Order): string { o.id }

  /** With the orders keyed by their ids, as every insert keys them, each
      pending order is listed exactly once. */
  lemma PendingListedOnce(orders: map<string, Order>, key: Option<string>, adminKey: Option<string>, o: Order)
    requires forall k :: k in orders ==> orders[k].id == k
    requires KeyMatches(key.GetOr(""), adminKey)
    requires o in orders.Values && Pending(o)
    ensures var r := ListPending(orders, key, adminKey, None);
            r.Ok? && multiset(r.value)[o] == 1
  {
    KeyedSelectOnce(orders, Pending, OrderTime, OrderId);
  }
}

/** `POST /api/admin/orders/reject`: behind the admin key, deletes one
    order, whatever its status. */
module AdminOrderRejectRoute {
  import opened Wrappers
  import opened Tables
  import opened AdminApproveRoute
  import opened AdminOrderListRoute

  const MissingOrderId := "Missing id"

  /** The key and id the route reads: `req.json().catch(() => ({}))` makes an
      unreadable body an empty one, and `String(… || "")` an absent field
      the empty string. */
  function BodyKey(body: Body): string { if body.Unreadable? then "" else body.key.GetOr("") }

  function BodyId(body: Body): string { if body.Unreadable? then "" else body.id.GetOr("") }

  /** `POST`; `fault` is the store's error of the delete. */
  method RejectOrder(db: Database, body: Body, adminKey: Option<string>, fault: Option<string>) returns (reply: Reply<()>)
    modifies db`orders
    ensures !KeyMatches(BodyKey(body), adminKey) ==>
              reply == Fail(401, Unauthorized) && db.orders == old(db.orders)
    ensures KeyMatches(BodyKey(body), adminKey) && BodyId(body) == "" ==>
              reply == Fail(400, MissingOrderId) && db.orders == old(db.orders)
    ensures KeyMatches(BodyKey(body), adminKey) && BodyId(body) != "" ==>
              && (fault.Some? ==> reply == Fail(500, fault.value) && db.orders == old(db.orders))
              && (fault.None? ==> reply == Ok(()) && db.orders == DeleteById(old(db.orders), BodyId(body)))
  {
    var key, id := BodyKey(body), BodyId(body);
    if !KeyMatches(key, adminKey) {
      return Fail(401, Unauthorized);
    }
    if id == "" {
      return Fail(400, MissingOrderId);
    }
    var e := db.DeleteOrder(id, fault);
    if e.Some? {
      return Fail(500, e.value);
    }
    reply := Ok(());
  }

  /** An unreadable body never deletes anything: it is refused as
      unauthorised, or, when the setting is the empty string, for its
      missing id. */
  lemma UnreadableDeletesNothing(message: string, adminKey: Option<string>)
    ensures var body := Unreadable(message);
            && BodyId(body) == ""
            && (KeyMatches(BodyKey(body), adminKey) <==> adminKey == Some(""))
  {
  }

  /** Deleting removes that order only, and an absent id leaves the table as
      it was. */
  lemma DeleteOnlyThatRow(orders: map<string, Order>, id: string)
    ensures DeleteById(orders, id).Keys == orders.Keys - {id}
    ensures forall k :: k in orders && k != id ==> DeleteById(orders, id)[k] == orders[k]
    ensures id !in orders ==> DeleteById(orders, id) == orders
  {
  }
}

/** `GET /api/admin/orders/reject-link`: the same delete from a link in the
    admin's e-mail, redirecting to the home page. */
module AdminOrderRejectLinkRoute {
  import opened Wrappers
  import opened Tables
  import opened AdminApproveRoute
  import opened AdminOrderListRoute
  import opened AdminOrderRejectRoute

  /** `GET`; `key` and `id` are the query parameters (`None` when absent). */
  method RejectLink(db: Database, key: Option<string>, id: Option<string>, adminKey: Option<string>, fault: Option<string>)
    returns (reply: Reply<()>)
    modifies db`orders
    ensures !KeyMatches(key.GetOr(""), adminKey) ==>
              reply == Fail(401, Unauthorized) && db.orders == old(db.orders)
    ensures KeyMatches(key.GetOr(""), adminKey) && id.GetOr("") == "" ==>
              reply == Fail(400, MissingOrderId) && db.orders == old(db.orders)
    ensures KeyMatches(key.GetOr(""), adminKey) && id.GetOr("") != "" ==>
              && (fault.Some? ==> reply == Fail(500, fault.value) && db.orders == old(db.orders))
              && (fault.None? ==> reply == Redirect("/") && db.orders == DeleteById(old(db.orders), id.value))
  {
    var k, i := key.GetOr(""), id.GetOr("");
    if !KeyMatches(k, adminKey) {
      return Fail(401, Unauthorized);
    }
    if i == "" {
      return Fail(400, MissingOrderId);
    }
    var e := db.DeleteOrder(i, fault);
    if e.Some? {
      return Fail(500, e.value);
    }
    reply := Redirect("/");
  }
}
