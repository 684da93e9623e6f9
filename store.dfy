/** An in-memory stand-in for the remote tables, with the three handlers that
    change or aggregate them: `signup` (its profile write), `checkout` and
    `pesanan_saya`. Each remote call that can raise is a flag parameter. The
    remote table makes `pesanan.id` where the code cannot see it; the store
    assumes it hands out increasing ids, as a serial column would, and
    generates them that way.
 */
module Shop {
  import opened Coerce
  import opened Rows
  import opened Pricing
  import opened Lookup
  import opened OrderNumbers
  import opened Checkout

  /** The ids of the orders in the table. */
  function OrderIds(pesanan: seq<Order>): set<nat> {
    set i | 0 <= i < |pesanan| :: pesanan[i].id
  }

  /** An order either has no lines at all (a checkout that stopped after the order
      insert left it behind) or its lines add up to its `total_harga`. */
  predicate LinesAgree(o: Order, lines: seq<OrderLine>) {
    lines == [] || LineSum(lines) == o.data.totalHarga
  }

  predicate IdsBelow(pesanan: seq<Order>, nextOrderId: nat) {
    forall i :: 0 <= i < |pesanan| ==> 0 < pesanan[i].id < nextOrderId
  }

  predicate IdsIncreasing(pesanan: seq<Order>) {
    forall i, j :: 0 <= i < j < |pesanan| ==> pesanan[i].id < pesanan[j].id
  }

  /** Every line refers to an order in the table. */
  predicate LinesReferToOrders(pesanan: seq<Order>, dipesan: seq<OrderLine>) {
    forall k :: 0 <= k < |dipesan| ==> dipesan[k].pesananId in OrderIds(pesanan)
  }

  predicate TotalsAgree(pesanan: seq<Order>, dipesan: seq<OrderLine>) {
    forall i :: 0 <= i < |pesanan| ==> LinesAgree(pesanan[i], LinesOf(dipesan, pesanan[i].id))
  }

  /** What the checkout keeps true of the two order tables: ids are positive,
      increasing in insertion order and below the next id; every line refers to an
      order; every order's lines agree with its total. */
  predicate TablesValid(pesanan: seq<Order>, dipesan: seq<OrderLine>, nextOrderId: nat) {
    0 < nextOrderId && IdsBelow(pesanan, nextOrderId) && IdsIncreasing(pesanan) &&
    LinesReferToOrders(pesanan, dipesan) && TotalsAgree(pesanan, dipesan)
  }

  /** Inserting the order row alone (the line insert never happens or fails) keeps
      the tables valid: the new order has no lines yet. */
  lemma OrderInsertKeepsValid(pesanan: seq<Order>, dipesan: seq<OrderLine>, nextOrderId: nat, data: OrderData)
    requires TablesValid(pesanan, dipesan, nextOrderId)
    ensures TablesValid(pesanan + [Order(nextOrderId, data)], dipesan, nextOrderId + 1)
    ensures LinesOf(dipesan, nextOrderId) == []
  {
    var p' := pesanan + [Order(nextOrderId, data)];
    forall k | 0 <= k < |dipesan| ensures dipesan[k].pesananId != nextOrderId {
      var i :| 0 <= i < |pesanan| && pesanan[i].id == dipesan[k].pesananId;
    }
    LinesOfAbsentOrder(dipesan, nextOrderId);
    assert IdsBelow(p', nextOrderId + 1);
    assert IdsIncreasing(p');
    forall k | 0 <= k < |dipesan| ensures dipesan[k].pesananId in OrderIds(p') {
      var i :| 0 <= i < |pesanan| && pesanan[i].id == dipesan[k].pesananId;
      assert p'[i] == pesanan[i];
    }
    forall i | 0 <= i < |p'| ensures LinesAgree(p'[i], LinesOf(dipesan, p'[i].id)) {
      if i < |pesanan| {
        assert p'[i] == pesanan[i];
      }
    }
  }

  /** Appending the lines of one order leaves the lines of every other order alone. */
  lemma LinesOfOtherOrder(dipesan: seq<OrderLine>, lines: seq<OrderLine>, id: nat, other: nat)
    requires other != id
    requires forall k :: 0 <= k < |lines| ==> lines[k].pesananId == id
    ensures LinesOf(dipesan + lines, other) == LinesOf(dipesan, other)
  {
    LinesOfAppend(dipesan, lines, other);
    LinesOfAbsentOrder(lines, other);
  }

  /** Lines that all refer to an existing order keep every line referring to an order. */
  lemma LineInsertKeepsReferences(pesanan: seq<Order>, dipesan: seq<OrderLine>, lines: seq<OrderLine>, id: nat)
    requires LinesReferToOrders(pesanan, dipesan) && id in OrderIds(pesanan)
    requires forall k :: 0 <= k < |lines| ==> lines[k].pesananId == id
    ensures LinesReferToOrders(pesanan, dipesan + lines)
  {
    forall k | 0 <= k < |dipesan + lines| ensures (dipesan + lines)[k].pesananId in OrderIds(pesanan) {
      if k >= |dipesan| {
        assert (dipesan + lines)[k] == lines[k - |dipesan|];
      }
    }
  }

  /** Lines for the newest order, adding up to its total, keep every order's lines
      in agreement with its total, and are then exactly that order's lines. */
  lemma LineInsertKeepsTotals(pesanan: seq<Order>, dipesan: seq<OrderLine>, lines: seq<OrderLine>, id: nat, data: OrderData)
    requires TotalsAgree(pesanan, dipesan) && IdsIncreasing(pesanan)
    requires |pesanan| > 0 && pesanan[|pesanan| - 1] == Order(id, data)
    requires LinesOf(dipesan, id) == [] && LineSum(lines) == data.totalHarga
    requires forall k :: 0 <= k < |lines| ==> lines[k].pesananId == id
    ensures TotalsAgree(pesanan, dipesan + lines)
    ensures LinesOf(dipesan + lines, id) == lines
  {
    var n := |pesanan| - 1;
    LinesOfAppend(dipesan, lines, id);
    LinesOfOwnLines(lines, id);
    assert LinesOf(dipesan + lines, id) == [] + lines == lines;
    forall i | 0 <= i < |pesanan| ensures LinesAgree(pesanan[i], LinesOf(dipesan + lines, pesanan[i].id)) {
      if i < n {
        assert pesanan[i].id < pesanan[n].id;
        LinesOfOtherOrder(dipesan, lines, id, pesanan[i].id);
      } else {
        assert pesanan[i] == Order(id, data);
      }
    }
  }

  /** Inserting the lines of the newest order, built from a cart whose total is the
      order's `total_harga`, keeps the tables valid, and the order's lines are then
      exactly those lines. */
  lemma LineInsertKeepsValid(pesanan: seq<Order>, dipesan: seq<OrderLine>, id: nat, data: OrderData,
                             items: seq<CartItem>, userId: string)
    requires TablesValid(pesanan, dipesan, id + 1)
    requires |pesanan| > 0 && pesanan[|pesanan| - 1] == Order(id, data)
    requires LinesOf(dipesan, id) == []
    requires AllConvertible(items) && CartTotal(items) == Some(data.totalHarga)
    ensures TablesValid(pesanan, dipesan + CartLines(items, id, userId), id + 1)
    ensures LinesOf(dipesan + CartLines(items, id, userId), id) == CartLines(items, id, userId)
  {
    var lines := CartLines(items, id, userId);
    LineSumIsCartTotal(items, id, userId);
    assert id in OrderIds(pesanan) by {
      assert pesanan[|pesanan| - 1].id == id;
    }
    LineInsertKeepsReferences(pesanan, dipesan, lines, id);
    LineInsertKeepsTotals(pesanan, dipesan, lines, id, data);
  }

  /** `.eq('user_id', uid).order('created_at', desc=True)`: the user's orders,
      newest first. Rows are inserted in creation order, so newest first is the
      reverse of table order. */
  function NewestFirst(pesanan: seq<Order>, userId: string): seq<Order> {
    if pesanan == [] then []
    else
      var last := pesanan[|pesanan| - 1];
      (if last.data.userId == userId then [last] else []) + NewestFirst(pesanan[..|pesanan| - 1], userId)
  }

  /** The list holds exactly the user's orders: each listed order is in the table
      and belongs to the user, and each order of the user is listed. */
  lemma {:induction false} NewestFirstSelectsUser(pesanan: seq<Order>, userId: string)
    ensures forall k :: 0 <= k < |NewestFirst(pesanan, userId)| ==>
              NewestFirst(pesanan, userId)[k] in pesanan && NewestFirst(pesanan, userId)[k].data.userId == userId
    ensures forall o :: o in pesanan && o.data.userId == userId ==> o in NewestFirst(pesanan, userId)
  {
    if pesanan != [] {
      var n := |pesanan| - 1;
      NewestFirstSelectsUser(pesanan[..n], userId);
      assert pesanan == pesanan[..n] + [pesanan[n]];
      var r := NewestFirst(pesanan, userId);
      var head := if pesanan[n].data.userId == userId then [pesanan[n]] else [];
      assert r == head + NewestFirst(pesanan[..n], userId);
      forall k | 0 <= k < |r| ensures r[k] in pesanan && r[k].data.userId == userId {
        if k >= |head| {
          assert r[k] == NewestFirst(pesanan[..n], userId)[k - |head|];
        }
      }
    }
  }

  predicate IdsDecreasing(orders: seq<Order>) {
    forall i, j :: 0 <= i < j < |orders| ==> orders[i].id > orders[j].id
  }

  /** In a valid store the order list comes out newest first: ids strictly decrease. */
  lemma {:induction false} NewestFirstIsDescending(pesanan: seq<Order>, userId: string)
    requires IdsIncreasing(pesanan)
    ensures IdsDecreasing(NewestFirst(pesanan, userId))
  {
    if pesanan != [] {
      var n := |pesanan| - 1;
      var front := pesanan[..n];
      NewestFirstIsDescending(front, userId);
      NewestFirstSelectsUser(front, userId);
      var rest := NewestFirst(front, userId);
      forall k | 0 <= k < |rest| ensures rest[k].id < pesanan[n].id {
        var i :| 0 <= i < n && front[i] == rest[k];
      }
    }
  }

  /** What the writes of a checkout leave behind, from the tables before (`p0`,
      `d0`, `n0`) to the tables after (`p1`, `d1`, `n1`):
      - a failed order insert writes nothing;
      - otherwise the order row is appended with the next id and stays, whatever
        happens next;
      - a missing `product_id` or a failed line insert writes no line;
      - otherwise one line per cart item is appended and the outcome is the
        confirmation of the new order. */
  ghost predicate Placed(items: seq<CartItem>, data: OrderData, userId: string, faults: Faults, outcome: Outcome,
                         p0: seq<Order>, d0: seq<OrderLine>, n0: nat,
                         p1: seq<Order>, d1: seq<OrderLine>, n1: nat)
    requires AllConvertible(items)
  {
    if faults.orderInsert then
      outcome == ToCart(CheckoutFailed(OrderInsertFailed)) && p1 == p0 && d1 == d0 && n1 == n0
    else
      p1 == p0 + [Order(n0, data)] && n1 == n0 + 1 &&
      if !AllHaveProductId(items) then
        outcome == ToCart(CheckoutFailed(MissingProductId)) && d1 == d0
      else if faults.lineInsert then
        outcome == ToCart(CheckoutFailed(LineInsertFailed)) && d1 == d0
      else
        outcome == ToConfirmation(n0) && d1 == d0 + CartLines(items, n0, userId)
  }

  /** A confirmed checkout grew the store by exactly one order and one line per
      cart item, appended after the rows already there; the confirmation names the
      new order. */
  lemma ConfirmedCheckoutGrowth(items: seq<CartItem>, data: OrderData, userId: string, faults: Faults, outcome: Outcome,
                                p0: seq<Order>, d0: seq<OrderLine>, n0: nat,
                                p1: seq<Order>, d1: seq<OrderLine>, n1: nat)
    requires AllConvertible(items)
    requires Placed(items, data, userId, faults, outcome, p0, d0, n0, p1, d1, n1)
    requires outcome.ToConfirmation?
    ensures |p1| == |p0| + 1 && |d1| == |d0| + |items|
    ensures p1[..|p0|] == p0 && p1[|p0|] == Order(outcome.orderId, data) && outcome.orderId == n0
    ensures d1[..|d0|] == d0 && LinesOf(d1[|d0|..], n0) == d1[|d0|..]
  {
    var lines := CartLines(items, n0, userId);
    assert d1[|d0|..] == lines;
    LinesOfOwnLines(lines, n0);
  }

  /** A checkout that fails after the order insert leaves that order in the table
      with no lines at all: nothing rolls the insert back. */
  lemma FailedLinesLeaveOrphanOrder(items: seq<CartItem>, data: OrderData, userId: string, faults: Faults, outcome: Outcome,
                                    p0: seq<Order>, d0: seq<OrderLine>, n0: nat,
                                    p1: seq<Order>, d1: seq<OrderLine>, n1: nat)
    requires TablesValid(p0, d0, n0) && AllConvertible(items)
    requires Placed(items, data, userId, faults, outcome, p0, d0, n0, p1, d1, n1)
    requires !faults.orderInsert && !outcome.ToConfirmation?
    ensures outcome.ToCart? && outcome.error.CheckoutFailed?
    ensures p1 == p0 + [Order(n0, data)] && d1 == d0
    ensures LinesOf(d1, n0) == []
  {
    OrderInsertKeepsValid(p0, d0, n0, data);
  }

  /** The worked cart through the whole checkout, with every remote call
      succeeding: the new order costs 25000, its two lines are written and the
      confirmation names it. */
  method CheckoutWorkedCart(store: Store, userId: string, catatan: string, now: string) returns (outcome: Outcome)
    requires store.Valid() && store.connected
    requires IsTruthyId(CheckoutStatusId(true, false, store.status))
    requires PemesanName(store.profiles, userId).Some?
    modifies store
    ensures outcome == ToConfirmation(old(store.nextOrderId))
    ensures store.status == old(store.status) && store.profiles == old(store.profiles)
    ensures store.pesanan == old(store.pesanan) +
              [Order(old(store.nextOrderId),
                     OrderData(userId, CheckoutStatusId(true, false, store.status).value, 25000, catatan,
                               OrderNumber(now, userId), PemesanName(store.profiles, userId).value))]
    ensures store.dipesan == old(store.dipesan) +
              [OrderLine(old(store.nextOrderId), JStr("P1"), 2, 10000, userId),
               OrderLine(old(store.nextOrderId), JStr("P2"), 1, 5000, userId)]
  {
    ExampleCart(store.nextOrderId, userId);
    assert AllHaveProductId(ExampleItems());
    outcome := store.Checkout(userId, Parsed(ExampleItems()), catatan, now, Faults(false, false, false, false));
  }

  /** An order of the list with its `total_items` annotation. */
  datatype ListedOrder = ListedOrder(order: Order, totalItems: int)

  /** How many orders the list holds when the line read at `failAt` raises. */
  function ListedCount(n: nat, failAt: Option<nat>): nat {
    if failAt.Some? && failAt.value < n then failAt.value else n
  }

  /** The signup form fields; None where `request.form.get` finds nothing. */
  datatype SignupForm = SignupForm(email: Option<string>, password: Option<string>,
                                   username: Option<string>, namaLengkap: Option<string>)

  /** A field Python treats as false: missing or the empty string. */
  predicate Blank(f: Option<string>) {
    f.None? || f.value == ""
  }

  predicate HasBlankField(form: SignupForm) {
    Blank(form.email) || Blank(form.password) || Blank(form.username) || Blank(form.namaLengkap)
  }

  /** What `supabase.auth.sign_up` hands back: a user, no user, or an exception. */
  datatype AuthReply = AuthUser(userId: string) | AuthNoUser | AuthRaised

  datatype SignupOutcome =
    | FieldsRequired      // "Semua kolom harus diisi." and the form again
    | SignupNotConnected  // the store client was never initialised
    | SignupFailed        // no user, or an exception: the form again
    | ToLogin             // profile written, redirect to login

  class Store {
    /** Whether the store client was initialised at start-up. */
    var connected: bool
    var status: seq<StatusRow>
    var profiles: seq<Profile>
    var pesanan: seq<Order>
    var dipesan: seq<OrderLine>
    /** The id the next inserted order receives. */
    var nextOrderId: nat
    /** The e-mail addresses sent to the authentication service's sign-up. */
    var signUps: seq<string>

    ghost predicate Valid()
      reads this
    {
      TablesValid(pesanan, dipesan, nextOrderId)
    }

    constructor (connected: bool, status: seq<StatusRow>, profiles: seq<Profile>)
      ensures Valid()
      ensures this.connected == connected && this.status == status && this.profiles == profiles
      ensures pesanan == [] && dipesan == [] && signUps == []
    {
      this.connected := connected;
      this.status := status;
      this.profiles := profiles;
      pesanan := [];
      dipesan := [];
      nextOrderId := 1;
      signUps := [];
    }

    /** `checkout()`: guards and reads first (`Prepare`), then the writes (`PlaceOrder`). */
    method Checkout(userId: string, payload: CartPayload, catatan: string, now: string, faults: Faults)
      returns (outcome: Outcome)
      requires Valid()
      modifies this
      ensures Valid()
      ensures connected == old(connected) && status == old(status) && profiles == old(profiles)
      ensures signUps == old(signUps)
      ensures var p := Prepare(payload, connected, status, profiles, userId, catatan, now, faults);
              p.Stop? ==>
                outcome == p.outcome &&
                pesanan == old(pesanan) && dipesan == old(dipesan) && nextOrderId == old(nextOrderId)
      ensures var p := Prepare(payload, connected, status, profiles, userId, catatan, now, faults);
              p.Ready? ==> Placed(p.items, p.data, userId, faults, outcome,
                                  old(pesanan), old(dipesan), old(nextOrderId), pesanan, dipesan, nextOrderId)
    {
      var p := Prepare(payload, connected, status, profiles, userId, catatan, now, faults);
      if p.Stop? {
        return p.outcome;
      }
      outcome := PlaceOrder(p.items, p.data, userId, faults);
    }

    /** The writes of `checkout()`: insert the order row, build one line per cart
        item, insert the lines. The two inserts are not atomic: when the lines are
        not written the order row stays. */
    method PlaceOrder(items: seq<CartItem>, data: OrderData, userId: string, faults: Faults)
      returns (outcome: Outcome)
      requires Valid()
      requires items != [] && AllConvertible(items) && CartTotal(items) == Some(data.totalHarga)
      modifies this
      ensures Valid()
      ensures connected == old(connected) && status == old(status) && profiles == old(profiles)
      ensures signUps == old(signUps)
      ensures Placed(items, data, userId, faults, outcome,
                     old(pesanan), old(dipesan), old(nextOrderId), pesanan, dipesan, nextOrderId)
    {
      if faults.orderInsert {
        return ToCart(CheckoutFailed(OrderInsertFailed));
      }
      var pesananId := InsertOrder(data);
      var lines, ok := CollectLines(items, pesananId, userId);
      if !ok {
        return ToCart(CheckoutFailed(MissingProductId));
      }
      if |lines| > 0 {
        if faults.lineInsert {
          return ToCart(CheckoutFailed(LineInsertFailed));
        }
        InsertLines(items, data, userId, pesananId);
      }
      outcome := ToConfirmation(pesananId);
    }

    /** `supabase.table('pesanan').insert(...)`: the row gets the next id. */
    method InsertOrder(data: OrderData) returns (pesananId: nat)
      requires Valid()
      modifies this`pesanan, this`nextOrderId
      ensures Valid()
      ensures pesananId == old(nextOrderId) && nextOrderId == pesananId + 1
      ensures pesanan == old(pesanan) + [Order(pesananId, data)]
      ensures LinesOf(dipesan, pesananId) == []
    {
      pesananId := nextOrderId;
      OrderInsertKeepsValid(pesanan, dipesan, pesananId, data);
      pesanan, nextOrderId := pesanan + [Order(pesananId, data)], pesananId + 1;
    }

    /** `supabase.table('dipesan').insert(dipesan_to_insert)` for the order just inserted. */
    method InsertLines(items: seq<CartItem>, data: OrderData, userId: string, pesananId: nat)
      requires Valid()
      requires AllConvertible(items) && CartTotal(items) == Some(data.totalHarga)
      requires |pesanan| > 0 && pesanan[|pesanan| - 1] == Order(pesananId, data) && nextOrderId == pesananId + 1
      requires LinesOf(dipesan, pesananId) == []
      modifies this`dipesan
      ensures Valid()
      ensures dipesan == old(dipesan) + CartLines(items, pesananId, userId)
    {
      LineInsertKeepsValid(pesanan, dipesan, pesananId, data, items, userId);
      dipesan := dipesan + CartLines(items, pesananId, userId);
    }

    /** `pesanan_saya()`: the user's orders newest first, each annotated with the sum
        of its lines' `jumlah`. An exception in the line read of order number
        `lineReadFailsAt` ends the loop; the orders annotated before it are still shown. */
    method PesananSaya(userId: string, ordersReadFails: bool, lineReadFailsAt: Option<nat>)
      returns (myOrders: seq<ListedOrder>)
      ensures !connected || ordersReadFails ==> myOrders == []
      ensures connected && !ordersReadFails ==>
                var q := NewestFirst(pesanan, userId);
                |myOrders| == ListedCount(|q|, lineReadFailsAt) &&
                forall i :: 0 <= i < |myOrders| ==>
                  myOrders[i].order == q[i] && myOrders[i].totalItems == TotalItems(LinesOf(dipesan, q[i].id))
    {
      myOrders := [];
      if !connected || ordersReadFails {
        return;
      }
      var ordersData := NewestFirst(pesanan, userId);
      var i := 0;
      while i < |ordersData|
        invariant 0 <= i <= |ordersData|
        invariant |myOrders| == i
        invariant lineReadFailsAt.Some? ==> i <= lineReadFailsAt.value
        invariant forall k :: 0 <= k < i ==>
                    myOrders[k] == ListedOrder(ordersData[k], TotalItems(LinesOf(dipesan, ordersData[k].id)))
      {
        if lineReadFailsAt == Some(i) {
          return;
        }
        var items := LinesOf(dipesan, ordersData[i].id);
        var totalItems := TotalItems(items);
        myOrders := myOrders + [ListedOrder(ordersData[i], totalItems)];
        i := i + 1;
      }
    }

    /** The POST branch of `signup()`: a blank field stops before any remote call;
        otherwise the authentication service is asked for an account and, when it
        returns a user, that user's profile row is inserted. */
    method Signup(form: SignupForm, auth: AuthReply, profileInsertFails: bool) returns (outcome: SignupOutcome)
      requires Valid()
      modifies this
      ensures Valid()
      ensures connected == old(connected) && status == old(status)
      ensures pesanan == old(pesanan) && dipesan == old(dipesan) && nextOrderId == old(nextOrderId)
      ensures HasBlankField(form) ==>
                outcome == FieldsRequired && signUps == old(signUps) && profiles == old(profiles)
      ensures !HasBlankField(form) && !connected ==>
                outcome == SignupNotConnected && signUps == old(signUps) && profiles == old(profiles)
      ensures !HasBlankField(form) && connected ==> signUps == old(signUps) + [form.email.value]
      ensures !HasBlankField(form) && connected && auth.AuthUser? && !profileInsertFails ==>
                outcome == ToLogin &&
                profiles == old(profiles) + [Profile(auth.userId, form.username.value, form.namaLengkap.value, None)]
      ensures !HasBlankField(form) && connected && (!auth.AuthUser? || profileInsertFails) ==>
                outcome == SignupFailed && profiles == old(profiles)
    {
      if HasBlankField(form) {
        return FieldsRequired;
      }
      if !connected {
        return SignupNotConnected;
      }
      signUps := signUps + [form.email.value];
      match auth {
        case AuthUser(id) =>
          if profileInsertFails {
            return SignupFailed;
          }
          profiles := profiles + [Profile(id, form.username.value, form.namaLengkap.value, None)];
          outcome := ToLogin;
        case _ =>
          outcome := SignupFailed;
      }
    }
  }
}
