/** `POST /api/admin/couriers/approve`: behind the shared admin key, turns a
    courier request into a courier with a fresh six-digit PIN. */
module AdminApproveRoute {
  import opened Wrappers
  import opened Text
  import opened Tables

  /** A JSON request body: unreadable (the exception's message), or the
      string values of its `key` and `id` fields (`None` when absent or null). */
  datatype Body = Unreadable(message: string) | Fields(key: Option<string>, id: Option<string>)

  const Unauthorized := "Unauthorized"
  const MissingId := "Lipsește id."

  /** `mustAdmin`; `adminKey` is the `ADMIN_KEY` setting (`None` when unset). */
  predicate MustAdmin(key: Option<string>, adminKey: Option<string>) {
    Truthy(key) && Truthy(adminKey) && key == adminKey
  }

  /** The key is accepted exactly when it is non-empty, the setting is present
      and non-empty, and the two are equal; an absent key is never accepted. */
  lemma MustAdminExactly(key: Option<string>, adminKey: Option<string>)
    ensures MustAdmin(key, adminKey) <==> key.Some? && key.value != "" && adminKey == key
    ensures key.None? || adminKey.None? || adminKey == Some("") ==> !MustAdmin(key, adminKey)
  {
  }

  /** `e?.message || "Eroare."`. */
  function ErrorText(message: string): (r: string)
    ensures r != ""
    ensures message != "" ==> r == message
  {
    if message != "" then message else "Eroare."
  }

  /** `genPin` with `Math.random() * 900000` given as the whole number `draw`
      below 900000 that `Math.floor` keeps of it. */
  function GenPin(draw: nat): (r: string)
    requires draw < 900000
    ensures |r| == 6 && AllDigits(r) && r[0] != '0'
    ensures DecimalValue(r) == 100000 + draw
  {
    var n := 100000 + draw;
    assert Pow10(5) == 100000 && Pow10(6) == 1000000;
    DecimalLength(n, 6);
    DecimalRoundTrip(n);
    Decimal(n)
  }

  /** The courier an approval writes for `q`. */
  function CourierFor(q: CourierRequest, pin: string): (c: Courier)
    ensures c.name == q.name && c.phone == q.phone && c.pin == pin && c.active
  {
    Courier(q.name, q.phone, pin, true)
  }

  /** `POST`. `draw` stands for the random number, and the faults are the
      store's errors of the select, the upsert and the update. */
  method Approve(db: Database, body: Body, adminKey: Option<string>, draw: nat,
                 selectFault: Option<string>, upsertFault: Option<string>, statusFault: Option<string>)
    returns (reply: Reply<string>)
    requires draw < 900000
    modifies db`couriers, db`requests
    ensures body.Unreadable? ==>
              reply == Fail(500, ErrorText(body.message)) && unchanged(db)
    ensures body.Fields? && !MustAdmin(Some(body.key.GetOr("")), adminKey) ==>
              reply == Fail(401, Unauthorized) && unchanged(db)
    ensures body.Fields? && MustAdmin(Some(body.key.GetOr("")), adminKey) && body.id.GetOr("") == "" ==>
              reply == Fail(400, MissingId) && unchanged(db)
    ensures body.Fields? && MustAdmin(Some(body.key.GetOr("")), adminKey) && body.id.GetOr("") != "" ==>
              Granted(db, body.id.GetOr(""), GenPin(draw), selectFault, upsertFault, statusFault,
                      old(db.couriers), old(db.requests), reply)
  {
    if body.Unreadable? {
      return Fail(500, ErrorText(body.message));
    }
    var key, id := body.key.GetOr(""), body.id.GetOr("");
    if !MustAdmin(Some(key), adminKey) {
      return Fail(401, Unauthorized);
    }
    if id == "" {
      return Fail(400, MissingId);
    }
    reply := Grant(db, id, GenPin(draw), selectFault, upsertFault, statusFault);
  }

  /** The store steps of an approval. */
  method Grant(db: Database, id: string, pin: string,
               selectFault: Option<string>, upsertFault: Option<string>, statusFault: Option<string>)
    returns (reply: Reply<string>)
    modifies db`couriers, db`requests
    ensures Granted(db, id, pin, selectFault, upsertFault, statusFault, old(db.couriers), old(db.requests), reply)
  {
    var fetched := db.SelectRequest(id, selectFault);
    if fetched.FetchError? {
      return Fail(500, ErrorText(fetched.message));
    }
    var q := fetched.row;
    var e := db.UpsertCourier(CourierFor(q, pin), upsertFault);
    if e.Some? {
      return Fail(500, ErrorText(e.value));
    }
    e := db.UpdateRequestStatus(id, "approved", statusFault);
    if e.Some? {
      return Fail(500, ErrorText(e.value));
    }
    reply := Ok(pin);
  }

  /** The tables and the reply after the store steps of an approval: a
      missing request writes nothing; otherwise the courier is upserted by
      phone, and then the request is marked approved, whatever its status
      was. A failure after the upsert keeps the courier row. */
  predicate Granted(db: Database, id: string, pin: string,
                    selectFault: Option<string>, upsertFault: Option<string>, statusFault: Option<string>,
                    couriers0: map<string, Courier>, requests0: map<string, CourierRequest>, reply: Reply<string>)
    reads db
  {
    && (selectFault.Some? ==>
          reply == Fail(500, ErrorText(selectFault.value)) && db.couriers == couriers0 && db.requests == requests0)
    && (selectFault.None? && id !in requests0 ==>
          reply == Fail(500, ErrorText(NoRow)) && db.couriers == couriers0 && db.requests == requests0)
    && (selectFault.None? && id in requests0 ==>
          var c := CourierFor(requests0[id], pin);
          && (upsertFault.Some? ==>
                reply == Fail(500, ErrorText(upsertFault.value)) && db.couriers == couriers0 && db.requests == requests0)
          && (upsertFault.None? ==>
                && db.couriers == UpsertByPhone(couriers0, c)
                && (statusFault.Some? ==> reply == Fail(500, ErrorText(statusFault.value)) && db.requests == requests0)
                && (statusFault.None? ==> reply == Ok(pin) && db.requests == WithStatus(requests0, id, "approved"))))
  }

  /** After a successful approval there is exactly one courier row for the
      request's phone; it holds the request's name, the PIN that was returned
      and `active`, an earlier row for that phone being overwritten. */
  lemma ApprovedCourier(couriers0: map<string, Courier>, q: CourierRequest, draw: nat)
    requires draw < 900000
    ensures var after := UpsertByPhone(couriers0, CourierFor(q, GenPin(draw)));
            && q.phone in after
            && after[q.phone] == Courier(q.name, q.phone, GenPin(draw), true)
            && |after| == (if q.phone in couriers0 then |couriers0| else |couriers0| + 1)
            && 100000 <= DecimalValue(after[q.phone].pin) <= 999999
  {
  }
}

/** `POST /api/admin/couriers/reject`: behind the admin key, marks one
    courier request rejected. */
module AdminRejectRoute {
  import opened Wrappers
  import opened Tables
  import opened AdminApproveRoute

  /** `POST`; `fault` is the store's error of the update. */
  method Reject(db: Database, body: Body, adminKey: Option<string>, fault: Option<string>) returns (reply: Reply<()>)
    modifies db`requests
    ensures db.couriers == old(db.couriers)
    ensures body.Unreadable? ==> reply == Fail(500, ErrorText(body.message)) && db.requests == old(db.requests)
    ensures body.Fields? && !MustAdmin(Some(body.key.GetOr("")), adminKey) ==>
              reply == Fail(401, Unauthorized) && db.requests == old(db.requests)
    ensures body.Fields? && MustAdmin(Some(body.key.GetOr("")), adminKey) && body.id.GetOr("") == "" ==>
              reply == Fail(400, MissingId) && db.requests == old(db.requests)
    ensures body.Fields? && MustAdmin(Some(body.key.GetOr("")), adminKey) && body.id.GetOr("") != "" ==>
              && (fault.Some? ==> reply == Fail(500, ErrorText(fault.value)) && db.requests == old(db.requests))
              && (fault.None? ==> reply == Ok(()) && db.requests == WithStatus(old(db.requests), body.id.value, "rejected"))
  {
    if body.Unreadable? {
      return Fail(500, ErrorText(body.message));
    }
    var key, id := body.key.GetOr(""), body.id.GetOr("");
    if !MustAdmin(Some(key), adminKey) {
      return Fail(401, Unauthorized);
    }
    if id == "" {
      return Fail(400, MissingId);
    }
    var e := db.UpdateRequestStatus(id, "rejected", fault);
    if e.Some? {
      return Fail(500, ErrorText(e.value));
    }
    reply := Ok(());
  }

  /** Rejecting changes only the status of that one request, and rejecting an
      id that is not in the table changes nothing and still answers ok. */
  lemma RejectOnlyThatRow(requests: map<string, CourierRequest>, id: string)
    ensures var after := WithStatus(requests, id, "rejected");
            && after.Keys == requests.Keys
            && (forall k :: k in requests && k != id ==> after[k] == requests[k])
            && (id in requests ==> after[id] == requests[id].(status := "rejected"))
            && (id !in requests ==> after == requests)
  {
  }
}

/** `GET /api/admin/couriers`: behind the admin key, every courier request,
    newest first. */
module AdminRequestListRoute {
  import opened Wrappers
  import opened Tables
  import opened Listing
  import opened AdminApproveRoute

  predicate AnyRequest(q: CourierRequest) { true }

  function RequestTime(q: CourierRequest): int { q.createdAt }

  /** `GET`; `key` is the query parameter (`None` when absent) and `fault`
      the store's error of the select. */
  ghost function ListRequests(requests: map<string, CourierRequest>, key: Option<string>, adminKey: Option<string>,
                              fault: Option<string>): (r: Reply<seq<CourierRequest>>)
    ensures !MustAdmin(key, adminKey) ==> r == Fail(401, Unauthorized)
    ensures MustAdmin(key, adminKey) && fault.Some? ==> r == Fail(500, ErrorText(fault.value))
    ensures r.Ok? <==> MustAdmin(key, adminKey) && fault.None?
    ensures r.Ok? ==> NewestFirst(r.value, RequestTime)
    ensures r.Ok? ==> forall k :: k in requests ==> requests[k] in r.value
    ensures r.Ok? ==> forall q :: q in r.value ==> q in requests.Values
    ensures r.Ok? ==> forall q :: multiset(r.value)[q] == |KeysHolding(requests, q)|
  {
    if !MustAdmin(key, adminKey) then Fail(401, Unauthorized)
    else if fault.Some? then Fail(500, ErrorText(fault.value))
    else Ok(SelectNewestFirst(requests, AnyRequest, RequestTime))
  }

  /** Requests of every status are listed, and an absent key is refused. */
  lemma EveryStatusListed(requests: map<string, CourierRequest>, key: Option<string>, adminKey: Option<string>, id: string)
    requires MustAdmin(key, adminKey) && id in requests
    ensures ListRequests(requests, key, adminKey, None).Ok?
    ensures requests[id] in ListRequests(requests, key, adminKey, None).value
    ensures ListRequests(requests, None, adminKey, None) == Fail(401, Unauthorized)
  {
  }

  function RequestId(q: CourierRequest): string { q.id }

  /** With the requests keyed by their ids, as every insert keys them, each
      request is listed exactly once. */
  lemma RequestListedOnce(requests: map<string, CourierRequest>, key: Option<string>, adminKey: Option<string>, id: string)
    requires forall k :: k in requests ==> requests[k].id == k
    requires MustAdmin(key, adminKey) && id in requests
    ensures var r := ListRequests(requests, key, adminKey, None);
            r.Ok? && multiset(r.value)[requests[id]] == 1
  {
    KeyedSelectOnce(requests, AnyRequest, RequestTime, RequestId);
  }
}
