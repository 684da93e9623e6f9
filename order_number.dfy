/** The human-readable order number
    `f"ORD-{now.strftime('%Y%m%d%H%M%S')}-{current_user.id[:4]}"`.
    The clock reading is a parameter: the 14-character timestamp.
 */
module OrderNumbers {
  import opened Coerce

  /** What `strftime('%Y%m%d%H%M%S')` produces: fourteen decimal digits. */
  predicate IsTimestamp(ts: string) {
    |ts| == 14 && AllDigits(ts)
  }

  /** `uid[:4]`: the first four characters, or the whole id when it is shorter. */
  function UserIdPrefix(userId: string): (p: string)
    ensures |p| <= 4 && p <= userId
    ensures |p| == 4 || p == userId
  {
    if |userId| <= 4 then userId else userId[..4]
  }

  function OrderNumber(ts: string, userId: string): string {
    "ORD-" + ts + "-" + UserIdPrefix(userId)
  }

  /** Reads an order number back into its timestamp and user-id prefix. */
  function SplitOrderNumber(nomor: string): Option<(string, string)> {
    if |nomor| >= 19 && nomor[..4] == "ORD-" && nomor[18] == '-' && |nomor| <= 23
    then Some((nomor[4..18], nomor[19..]))
    else None
  }

  /** The order number keeps the timestamp and the user-id prefix intact. */
  lemma OrderNumberRoundTrip(ts: string, userId: string)
    requires IsTimestamp(ts)
    ensures SplitOrderNumber(OrderNumber(ts, userId)) == Some((ts, UserIdPrefix(userId)))
  {
    var nomor := OrderNumber(ts, userId);
    assert nomor[..4] == "ORD-";
    assert nomor[4..18] == ts;
    assert nomor[19..] == UserIdPrefix(userId);
  }

  /** Two checkouts get the same order number exactly when they happen in the same
      second and their user ids share the first four characters: nothing makes the
      number unique. */
  lemma OrderNumberCollision(ts1: string, userId1: string, ts2: string, userId2: string)
    requires IsTimestamp(ts1) && IsTimestamp(ts2)
    ensures OrderNumber(ts1, userId1) == OrderNumber(ts2, userId2) <==>
              ts1 == ts2 && UserIdPrefix(userId1) == UserIdPrefix(userId2)
  {
    OrderNumberRoundTrip(ts1, userId1);
    OrderNumberRoundTrip(ts2, userId2);
  }
}
