/** The `/checkout` handler up to its first write, and the loop that builds the
    order lines. The handler's redirects and flash messages become an `Outcome`
    value; every remote call that can raise gets a flag in `Faults`.
 */
module Checkout {
  import opened Coerce
  import opened Rows
  import opened Pricing
  import opened Lookup
  import opened OrderNumbers

  /** The `cart_items` form field: absent or empty, not JSON, or a decoded array. */
  datatype CartPayload = Missing | Malformed | Parsed(items: seq<CartItem>)

  /** Why an exception inside the handler's `try` ended the checkout. */
  datatype Cause = ProfileUnavailable | NotANumber | OrderInsertFailed | MissingProductId | LineInsertFailed

  /** The flash message shown on the way back to the cart. */
  datatype CartError =
    | NoCartPayload     // "Keranjang kosong"
    | NoItemsSelected   // "Pilih produk yang ingin dibeli"
    | NotConnected      // the store client was never initialised
    | StatusNotFound    // no truthy id for status 'proses'
    | CheckoutFailed(cause: Cause)

  datatype Outcome =
    | ToCart(error: CartError)       // redirect to the cart page
    | ToConfirmation(orderId: nat)   // redirect to the new order's confirmation page
    | Crash                          // `json.loads` raised outside the `try`

  /** Which remote calls raise during this request. */
  datatype Faults = Faults(statusRead: bool, profileRead: bool, orderInsert: bool, lineInsert: bool)

  /** The result of everything the handler does before its first insert. */
  datatype Prepared = Ready(items: seq<CartItem>, data: OrderData) | Stop(outcome: Outcome)

  /** The handler up to the insert into `pesanan`: the two cart guards, the client
      guard, the status lookup, the profile read, the total and the order number. */
  function Prepare(payload: CartPayload, connected: bool, status: seq<StatusRow>, profiles: seq<Profile>,
                   userId: string, catatan: string, now: string, faults: Faults): (p: Prepared)
    ensures p.Ready? <==>
              payload.Parsed? && payload.items != [] && connected &&
              IsTruthyId(CheckoutStatusId(connected, faults.statusRead, status)) &&
              !faults.profileRead && PemesanName(profiles, userId).Some? && AllConvertible(payload.items)
    ensures p.Ready? ==> payload == Parsed(p.items) && p.items != [] && AllConvertible(p.items)
    ensures p.Ready? ==> CartTotal(p.items) == Some(p.data.totalHarga)
    ensures p.Ready? ==> p.data.statusId != 0
    ensures p.Ready? ==>
              exists k :: 0 <= k < |status| && IsCheckoutStatus(status[k]) && status[k].id == p.data.statusId &&
                          forall j :: 0 <= j < k ==> !IsCheckoutStatus(status[j])
    ensures p.Ready? ==> p.data.userId == userId && p.data.catatan == catatan
    ensures p.Ready? ==> p.data.nomor == OrderNumber(now, userId) && Some(p.data.pemesan) == PemesanName(profiles, userId)
  {
    match payload
    case Missing => Stop(ToCart(NoCartPayload))
    case Malformed => Stop(Crash)
    case Parsed(items) =>
      if items == [] then Stop(ToCart(NoItemsSelected))
      else if !connected then Stop(ToCart(NotConnected))
      else
        var statusId := CheckoutStatusId(connected, faults.statusRead, status);
        if !IsTruthyId(statusId) then Stop(ToCart(StatusNotFound))
        else
          var pemesan := if faults.profileRead then None else PemesanName(profiles, userId);
          if pemesan.None? then Stop(ToCart(CheckoutFailed(ProfileUnavailable)))
          else
            match CartTotal(items)
            case None => Stop(ToCart(CheckoutFailed(NotANumber)))
            case Some(total) =>
              Ready(items, OrderData(userId, statusId.value, total, catatan, OrderNumber(now, userId), pemesan.value))
  }

  /** An absent or empty cart stops the checkout before the status lookup, the
      profile read or any insert: the outcome depends on nothing else. */
  lemma EmptyCartStops(payload: CartPayload, connected: bool, status: seq<StatusRow>, profiles: seq<Profile>,
                       userId: string, catatan: string, now: string, faults: Faults)
    requires payload == Missing || payload == Parsed([])
    ensures Prepare(payload, connected, status, profiles, userId, catatan, now, faults) ==
              Stop(ToCart(if payload == Missing then NoCartPayload else NoItemsSelected))
  {
  }

  /** Without a truthy "proses" status id the checkout stops before the profile
      read and before any insert, whatever the cart holds. */
  lemma MissingStatusStops(payload: CartPayload, connected: bool, status: seq<StatusRow>, profiles: seq<Profile>,
                           userId: string, catatan: string, now: string, faults: Faults)
    requires payload.Parsed? && payload.items != [] && connected
    requires !IsTruthyId(CheckoutStatusId(connected, faults.statusRead, status))
    ensures Prepare(payload, connected, status, profiles, userId, catatan, now, faults) == Stop(ToCart(StatusNotFound))
  {
  }

  /** A price or quantity that `int()` rejects stops the checkout before any insert:
      the total is computed before the order row is written. */
  lemma UnconvertibleCartStops(payload: CartPayload, connected: bool, status: seq<StatusRow>, profiles: seq<Profile>,
                               userId: string, catatan: string, now: string, faults: Faults)
    requires payload.Parsed? && !AllConvertible(payload.items)
    ensures Prepare(payload, connected, status, profiles, userId, catatan, now, faults).Stop?
    ensures Prepare(payload, connected, status, profiles, userId, catatan, now, faults).outcome.ToCart?
  {
  }

  /** A profile read that raises, or that does not find exactly one profile, stops
      the checkout before the total is computed and before any insert. */
  lemma ProfileFailureStops(payload: CartPayload, connected: bool, status: seq<StatusRow>, profiles: seq<Profile>,
                            userId: string, catatan: string, now: string, faults: Faults)
    requires payload.Parsed? && payload.items != [] && connected
    requires IsTruthyId(CheckoutStatusId(connected, faults.statusRead, status))
    requires faults.profileRead || PemesanName(profiles, userId).None?
    ensures Prepare(payload, connected, status, profiles, userId, catatan, now, faults) ==
              Stop(ToCart(CheckoutFailed(ProfileUnavailable)))
  {
  }

  predicate AllHaveProductId(items: seq<CartItem>) {
    forall k :: 0 <= k < |items| ==> !items[k].productId.Absent?
  }

  /** The loop that fills `dipesan_to_insert`. `ok` is false when some item has no
      `product_id` (the KeyError raised while building its line). */
  method CollectLines(items: seq<CartItem>, pesananId: nat, userId: string) returns (lines: seq<OrderLine>, ok: bool)
    requires AllConvertible(items)
    ensures ok <==> AllHaveProductId(items)
    ensures ok ==> lines == CartLines(items, pesananId, userId)
  {
    lines := [];
    var i := 0;
    while i < |items|
      invariant 0 <= i <= |items|
      invariant |lines| == i
      invariant forall k :: 0 <= k < i ==> !items[k].productId.Absent?
      invariant forall k :: 0 <= k < i ==> lines[k] == ItemLine(items[k], pesananId, userId)
    {
      var item := items[i];
      if item.productId.Absent? {
        ok := false;
        return;
      }
      var jumlah := ToInt(item.jumlah);
      var harga := ToInt(item.productPrice);
      lines := lines + [OrderLine(pesananId, item.productId, jumlah.value, harga.value, userId)];
      i := i + 1;
    }
    ok := true;
  }
}
