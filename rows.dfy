/** The rows of the remote tables the checkout reads and writes:
    `status`, `profiles`, `pesanan` (orders) and `dipesan` (order lines),
    together with the queries the handlers run over `dipesan`.
 */
module Rows {
  import opened Coerce

  /** A row of `status`: `selesai` is the "completed" flag. */
  datatype StatusRow = StatusRow(id: int, nama: string, selesai: bool)

  /** A row of `profiles`, created right after sign-up. */
  datatype Profile = Profile(userId: string, username: string, namaLengkap: string, avatarUrl: Option<string>)

  /** One decoded object of the posted cart. */
  datatype CartItem = CartItem(productId: Field, productPrice: Field, jumlah: Field)

  /** The columns the checkout writes into a new `pesanan` row. */
  datatype OrderData = OrderData(
    userId: string,
    statusId: int,
    totalHarga: int,
    catatan: string,
    nomor: string,
    pemesan: string)

  /** A `pesanan` row: the data written plus the id the store generated. */
  datatype Order = Order(id: nat, data: OrderData)

  /** A `dipesan` row. `productsId` is copied from the cart without conversion. */
  datatype OrderLine = OrderLine(pesananId: nat, productsId: Field, jumlah: int, harga: int, userId: string)

  /** The lines of one order: `dipesan` filtered on `pesanan_id`, in table order. */
  function LinesOf(dipesan: seq<OrderLine>, pesananId: nat): (r: seq<OrderLine>)
    ensures |r| <= |dipesan|
    ensures forall k :: 0 <= k < |r| ==> r[k].pesananId == pesananId
  {
    if dipesan == [] then []
    else (if dipesan[0].pesananId == pesananId then [dipesan[0]] else []) + LinesOf(dipesan[1..], pesananId)
  }

  /** The sum of `jumlah * harga` over some lines. */
  function LineSum(lines: seq<OrderLine>): int {
    if lines == [] then 0 else lines[0].jumlah * lines[0].harga + LineSum(lines[1..])
  }

  /** The sum of `jumlah` over some lines: what the order list shows as `total_items`. */
  function TotalItems(lines: seq<OrderLine>): int {
    if lines == [] then 0 else lines[0].jumlah + TotalItems(lines[1..])
  }

  /** Filtering distributes over appending rows to the table. */
  lemma {:induction false} LinesOfAppend(a: seq<OrderLine>, b: seq<OrderLine>, pesananId: nat)
    ensures LinesOf(a + b, pesananId) == LinesOf(a, pesananId) + LinesOf(b, pesananId)
  {
    if a == [] {
      assert a + b == b;
    } else {
      var head := if a[0].pesananId == pesananId then [a[0]] else [];
      assert (a + b)[0] == a[0];
      assert (a + b)[1..] == a[1..] + b;
      LinesOfAppend(a[1..], b, pesananId);
      calc {
        LinesOf(a + b, pesananId);
        head + LinesOf(a[1..] + b, pesananId);
        head + (LinesOf(a[1..], pesananId) + LinesOf(b, pesananId));
        (head + LinesOf(a[1..], pesananId)) + LinesOf(b, pesananId);
        LinesOf(a, pesananId) + LinesOf(b, pesananId);
      }
    }
  }

  /** Lines that all belong to one order are exactly that order's lines. */
  lemma {:induction false} LinesOfOwnLines(lines: seq<OrderLine>, pesananId: nat)
    requires forall k :: 0 <= k < |lines| ==> lines[k].pesananId == pesananId
    ensures LinesOf(lines, pesananId) == lines
  {
    if lines != [] {
      LinesOfOwnLines(lines[1..], pesananId);
    }
  }

  /** An order that no line refers to has no lines. */
  lemma {:induction false} LinesOfAbsentOrder(dipesan: seq<OrderLine>, pesananId: nat)
    requires forall k :: 0 <= k < |dipesan| ==> dipesan[k].pesananId != pesananId
    ensures LinesOf(dipesan, pesananId) == []
  {
    if dipesan != [] {
      LinesOfAbsentOrder(dipesan[1..], pesananId);
    }
  }
}
