/** The two reads the checkout makes before it writes anything:
    the "in progress" status (`get_checkout_status_id`) and the orderer's
    full name from `profiles` (a `.single()` query).
 */
module Lookup {
  import opened Coerce
  import opened Rows

  /** The filter `nama = 'proses'` and `selesai = false`. */
  predicate IsCheckoutStatus(row: StatusRow) {
    row.nama == "proses" && !row.selesai
  }

  /** Position of the first matching row, or `|rows|` when none matches. */
  function FirstCheckoutStatus(rows: seq<StatusRow>): (k: nat)
    ensures k <= |rows|
    ensures forall j :: 0 <= j < k ==> !IsCheckoutStatus(rows[j])
    ensures k < |rows| ==> IsCheckoutStatus(rows[k])
  {
    if rows == [] then 0
    else if IsCheckoutStatus(rows[0]) then 0
    else 1 + FirstCheckoutStatus(rows[1..])
  }

  /** `get_checkout_status_id()`: the id of the first matching row (`.limit(1)`,
      `response.data[0]['id']`), or None when the client is not initialised,
      the read raises, or no row matches. */
  function CheckoutStatusId(connected: bool, readFails: bool, rows: seq<StatusRow>): (r: Option<int>)
    ensures r.Some? <==> connected && !readFails && exists k :: 0 <= k < |rows| && IsCheckoutStatus(rows[k])
    ensures r.Some? ==> exists k :: 0 <= k < |rows| && IsCheckoutStatus(rows[k]) && rows[k].id == r.value &&
                                     forall j :: 0 <= j < k ==> !IsCheckoutStatus(rows[j])
  {
    if !connected || readFails then None
    else
      var k := FirstCheckoutStatus(rows);
      if k < |rows| then Some(rows[k].id) else None
  }

  /** Python truthiness of the id: `if not checkout_status_id` also rejects id 0. */
  predicate IsTruthyId(r: Option<int>) {
    r.Some? && r.value != 0
  }

  /** The profile rows of one user, in table order. */
  function ProfilesOf(profiles: seq<Profile>, userId: string): (r: seq<Profile>)
    ensures |r| <= |profiles|
    ensures forall p :: p in r <==> p in profiles && p.userId == userId
  {
    if profiles == [] then []
    else (if profiles[0].userId == userId then [profiles[0]] else []) + ProfilesOf(profiles[1..], userId)
  }

  /** `select('nama_lengkap').eq('user_id', uid).single()`: the name when exactly
      one profile row belongs to the user; `.single()` raises otherwise. */
  function PemesanName(profiles: seq<Profile>, userId: string): (r: Option<string>)
    ensures r.Some? <==> |ProfilesOf(profiles, userId)| == 1
    ensures r.Some? ==> exists k :: 0 <= k < |profiles| && profiles[k].userId == userId && profiles[k].namaLengkap == r.value
  {
    var mine := ProfilesOf(profiles, userId);
    if |mine| == 1 then Some(mine[0].namaLengkap) else None
  }

  lemma {:induction false} ProfilesOfAppend(a: seq<Profile>, b: seq<Profile>, userId: string)
    ensures ProfilesOf(a + b, userId) == ProfilesOf(a, userId) + ProfilesOf(b, userId)
  {
    if a == [] {
      assert a + b == b;
    } else {
      assert (a + b)[1..] == a[1..] + b;
      ProfilesOfAppend(a[1..], b, userId);
    }
  }

  /** The profile written at sign-up is what the checkout reads back as `pemesan`,
      as long as it is the user's only profile; a second one makes `.single()` raise. */
  lemma NameAfterSignup(profiles: seq<Profile>, p: Profile)
    ensures PemesanName(profiles + [p], p.userId) ==
              if ProfilesOf(profiles, p.userId) == [] then Some(p.namaLengkap) else None
  {
    ProfilesOfAppend(profiles, [p], p.userId);
    assert ProfilesOf([p], p.userId) == [p] by {
      assert [p][1..] == [];
    }
  }
}
