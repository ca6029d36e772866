/** The four tables of the hosted store (`orders`, `couriers`,
    `courier_requests`, `profiles`), held in memory as maps, and the store calls
    the core makes. Every call is one atomic step: it either applies completely
    or reports the store's error and changes nothing. */
module Tables {
  import opened Wrappers

  /** A row of `orders`. `createdAt` is the creation time as a number, so that
      "newest first" is an order on numbers; the other timestamps are opaque strings.
      `what`, `who_where` and `urgent` are nullable columns, as the pages type them. */
  datatype Order = Order(
    id: string,
    createdAt: int,
    what: Option<string>,
    whoWhere: Option<string>,
    phone: Option<string>,
    urgent: Option<bool>,
    status: Option<string>,
    clientId: Option<string>,
    acceptedById: Option<string>,
    acceptedByName: Option<string>,
    acceptedByPhone: Option<string>,
    acceptedAt: Option<string>,
    cancelledAt: Option<string>,
    cancelReason: Option<string>,
    cancelNote: Option<string>,
    phoneVerified: bool)

  /** A row of `couriers`; the table is keyed by `phone`. */
  datatype Courier = Courier(name: string, phone: string, pin: string, active: bool)

  /** A row of `courier_requests`. */
  datatype CourierRequest = CourierRequest(
    id: string, createdAt: int, name: string, phone: string, area: string, status: string)

  datatype Role = ClientRole | CourierRole

  /** A row of `profiles`, keyed by the identity's id. */
  datatype Profile = Profile(
    id: string, role: Role, fullName: Option<string>, phone: Option<string>, vehiclePlate: Option<string>)

  /** What `.maybeSingle()` on a courier lookup yields. */
  datatype Lookup = Found(courier: Courier) | NotFound | LookupError(message: string)

  /** What `.single()` on a lookup by id yields. */
  datatype Fetched<T> = Fetched(row: T) | FetchError(message: string)

  /** The store's error text when an insert collides with an existing key. */
  const DuplicateKey: string := "duplicate key value violates unique constraint"
  /** The store's error text when `.maybeSingle()` finds several rows. */
  const SeveralRows: string := "multiple rows returned"
  /** The store's error text when `.single()` finds no row. */
  const NoRow: string := "no rows returned"

  /** `UPDATE … SET patch WHERE id = id AND guard` on a table keyed by id: the
      new table, and whether a row matched. Only the matched row changes. */
  function UpdateWhere<T>(m: map<string, T>, id: string, guard: T -> bool, patch: T -> T): (r: (map<string, T>, bool))
    ensures r.1 <==> id in m && guard(m[id])
    ensures r.0.Keys == m.Keys
    ensures forall k :: k in m && k != id ==> r.0[k] == m[k]
    ensures id in m ==> r.0[id] == (if r.1 then patch(m[id]) else m[id])
  {
    if id in m && guard(m[id]) then (m[id := patch(m[id])], true) else (m, false)
  }

  /** `DELETE … WHERE id = id`: that row goes, every other row stays as it was. */
  function DeleteById<T>(m: map<string, T>, id: string): (r: map<string, T>)
    ensures r.Keys == m.Keys - {id}
    ensures forall k :: k in r ==> r[k] == m[k]
  {
    m - {id}
  }

  /** `upsert` into `couriers` with `onConflict: "phone"`: afterwards there is
      exactly one row for the phone, holding the new values; an existing row is
      overwritten, not duplicated, and the other rows are untouched. */
  function UpsertByPhone(couriers: map<string, Courier>, c: Courier): (r: map<string, Courier>)
    ensures r.Keys == couriers.Keys + {c.phone}
    ensures r[c.phone] == c
    ensures forall ph :: ph in couriers && ph != c.phone ==> r[ph] == couriers[ph]
    ensures |r| == if c.phone in couriers then |couriers| else |couriers| + 1
  {
    couriers[c.phone := c]
  }

  /** `UPDATE profiles SET full_name, phone WHERE id = id`. */
  function WithContact(profiles: map<string, Profile>, id: string, fullName: string, phone: string): (r: map<string, Profile>)
    ensures r.Keys == profiles.Keys
    ensures forall k :: k in profiles && k != id ==> r[k] == profiles[k]
    ensures id in profiles ==> r[id] == profiles[id].(fullName := Some(fullName), phone := Some(phone))
  {
    if id in profiles then profiles[id := profiles[id].(fullName := Some(fullName), phone := Some(phone))] else profiles
  }

  /** `UPDATE courier_requests SET status WHERE id = id`: only that row's
      status changes, and a missing id changes nothing. */
  function WithStatus(requests: map<string, CourierRequest>, id: string, status: string): (r: map<string, CourierRequest>)
    ensures r.Keys == requests.Keys
    ensures forall k :: k in requests && k != id ==> r[k] == requests[k]
    ensures id in requests ==> r[id] == requests[id].(status := status)
  {
    if id in requests then requests[id := requests[id].(status := status)] else requests
  }

  /** The phones (keys) of the active couriers whose PIN is `pin`. */
  function ActiveWithPin(couriers: map<string, Courier>, pin: string): (r: set<string>)
    ensures forall ph :: ph in r <==> ph in couriers && couriers[ph].active && couriers[ph].pin == pin
  {
    set ph | ph in couriers && couriers[ph].active && couriers[ph].pin == pin
  }

  lemma SingletonHasOne(s: set<string>, x: string)
    requires |s| == 1 && x in s
    ensures s == {x}
  {
    var rest := s - {x};
    assert s == rest + {x};
    assert |rest| == 0;
  }

  /** What `.maybeSingle()` on the active couriers with PIN `pin` yields: no
      row is not an error, several rows are, and a single row is returned. */
  ghost function PinLookup(couriers: map<string, Courier>, pin: string, fault: Option<string>): (r: Lookup)
    ensures fault.Some? ==> r == LookupError(fault.value)
    ensures fault.None? && |ActiveWithPin(couriers, pin)| == 0 ==> r == NotFound
    ensures fault.None? && |ActiveWithPin(couriers, pin)| > 1 ==> r == LookupError(SeveralRows)
    ensures fault.None? && |ActiveWithPin(couriers, pin)| == 1 ==>
              r.Found? && exists ph :: ActiveWithPin(couriers, pin) == {ph} && couriers[ph] == r.courier
    ensures r.Found? ==> r.courier.active && r.courier.pin == pin
  {
    var hits := ActiveWithPin(couriers, pin);
    if fault.Some? then LookupError(fault.value)
    else if |hits| == 0 then NotFound
    else if |hits| > 1 then LookupError(SeveralRows)
    else
      var ph :| ph in hits;
      SingletonHasOne(hits, ph);
      Found(couriers[ph])
  }

  /** The in-memory store. Each method is one store call. */
  class Database {
    var orders: map<string, Order>
    var couriers: map<string, Courier>
    var requests: map<string, CourierRequest>
    var profiles: map<string, Profile>

    constructor (orders: map<string, Order>, couriers: map<string, Courier>,
                 requests: map<string, CourierRequest>, profiles: map<string, Profile>)
      ensures this.orders == orders && this.couriers == couriers
      ensures this.requests == requests && this.profiles == profiles
    {
      this.orders := orders;
      this.couriers := couriers;
      this.requests := requests;
      this.profiles := profiles;
    }

    /** `from("orders").insert([row])`. */
    method InsertOrder(row: Order, fault: Option<string>) returns (err: Option<string>)
      modifies this`orders
      ensures err == (if fault.Some? then fault else if row.id in old(orders) then Some(DuplicateKey) else None)
      ensures orders == if err.None? then old(orders)[row.id := row] else old(orders)
    {
      if fault.Some? {
        err := fault;
      } else if row.id in orders {
        err := Some(DuplicateKey);
      } else {
        err := None;
        orders := orders[row.id := row];
      }
    }

    /** `from("orders").update(patch).eq("id", id)` followed by the further `.eq`
        filters that make up `guard`; `matched` is whether a row was written. */
    method UpdateOrder(id: string, guard: Order -> bool, patch: Order -> Order, fault: Option<string>)
      returns (matched: bool, err: Option<string>)
      modifies this`orders
      ensures err == fault
      ensures matched == (fault.None? && id in old(orders) && guard(old(orders)[id]))
      ensures orders == if fault.None? then UpdateWhere(old(orders), id, guard, patch).0 else old(orders)
    {
      err := fault;
      matched := false;
      if fault.None? {
        var r := UpdateWhere(orders, id, guard, patch);
        orders, matched := r.0, r.1;
      }
    }

    /** `from("orders").delete().eq("id", id)`. */
    method DeleteOrder(id: string, fault: Option<string>) returns (err: Option<string>)
      modifies this`orders
      ensures err == fault
      ensures orders == if fault.None? then DeleteById(old(orders), id) else old(orders)
    {
      err := fault;
      if fault.None? {
        orders := DeleteById(orders, id);
      }
    }

    /** `from("couriers").select(…).eq("active", true).eq("pin", pin).maybeSingle()`:
        the store's side of the lookup, computed as the ghost `PinLookup`
        specifies it; the properties of the lookup are stated on `PinLookup`. */
    method FindActiveByPin(pin: string, fault: Option<string>) returns (r: Lookup)
      ensures r == PinLookup(couriers, pin, fault)
    {
      var hits := ActiveWithPin(couriers, pin);
      if fault.Some? {
        r := LookupError(fault.value);
      } else if |hits| == 0 {
        r := NotFound;
      } else if |hits| > 1 {
        r := LookupError(SeveralRows);
      } else {
        var ph :| ph in hits;
        SingletonHasOne(hits, ph);
        r := Found(couriers[ph]);
      }
    }

    /** `from("courier_requests").insert([row]).select(…).single()`. */
    method InsertRequest(row: CourierRequest, fault: Option<string>) returns (err: Option<string>)
      modifies this`requests
      ensures err == (if fault.Some? then fault else if row.id in old(requests) then Some(DuplicateKey) else None)
      ensures requests == if err.None? then old(requests)[row.id := row] else old(requests)
    {
      if fault.Some? {
        err := fault;
      } else if row.id in requests {
        err := Some(DuplicateKey);
      } else {
        err := None;
        requests := requests[row.id := row];
      }
    }

    /** `from("courier_requests").select(…).eq("id", id).single()`: a missing row is an error. */
    method SelectRequest(id: string, fault: Option<string>) returns (r: Fetched<CourierRequest>)
      ensures fault.Some? ==> r == FetchError(fault.value)
      ensures fault.None? && id !in requests ==> r == FetchError(NoRow)
      ensures fault.None? && id in requests ==> r == Fetched(requests[id])
    {
      if fault.Some? {
        r := FetchError(fault.value);
      } else if id !in requests {
        r := FetchError(NoRow);
      } else {
        r := Fetched(requests[id]);
      }
    }

    /** `from("courier_requests").update({ status }).eq("id", id)`: no matching row is not an error. */
    method UpdateRequestStatus(id: string, status: string, fault: Option<string>) returns (err: Option<string>)
      modifies this`requests
      ensures err == fault
      ensures requests == if fault.None? then WithStatus(old(requests), id, status) else old(requests)
    {
      err := fault;
      if fault.None? {
        requests := WithStatus(requests, id, status);
      }
    }

    /** `from("couriers").upsert([c], { onConflict: "phone" })`. */
    method UpsertCourier(c: Courier, fault: Option<string>) returns (err: Option<string>)
      modifies this`couriers
      ensures err == fault
      ensures couriers == if fault.None? then UpsertByPhone(old(couriers), c) else old(couriers)
    {
      err := fault;
      if fault.None? {
        couriers := UpsertByPhone(couriers, c);
      }
    }

    /** `from("profiles").update({ full_name, phone }).eq("id", id)`: no matching row is not an error. */
    method UpdateProfile(id: string, fullName: string, phone: string, fault: Option<string>) returns (err: Option<string>)
      modifies this`profiles
      ensures err == fault
      ensures profiles == if fault.None? then WithContact(old(profiles), id, fullName, phone) else old(profiles)
    {
      err := fault;
      if fault.None? {
        profiles := WithContact(profiles, id, fullName, phone);
      }
    }

    /** `from("profiles").upsert(p, { onConflict: "id" })`. */
    method UpsertProfile(p: Profile, fault: Option<string>) returns (err: Option<string>)
      modifies this`profiles
      ensures err == fault
      ensures profiles == if fault.None? then old(profiles)[p.id := p] else old(profiles)
    {
      err := fault;
      if fault.None? {
        profiles := profiles[p.id := p];
      }
    }
  }
}
