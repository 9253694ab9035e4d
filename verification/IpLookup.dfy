/** The range searches of the IP database, in the unsigned 32-bit arithmetic they use, and the byte order
    of 128-bit addresses. */
module IpLookup {
  import opened Lists

  const WORD: nat := 0x1_0000_0000
  const MAX_IPV4_RANGE: nat := 0xFFFF_FFFF

  type Byte = x: nat | x < 256
  type Bytes = seq<Byte>

  // ---------------------------------------------------------------------------------------
  // Byte order
  // ---------------------------------------------------------------------------------------

  /** The value of bytes as the database stores them, the lowest first. */
  function Stored(b: Bytes): nat {
    if b == [] then 0 else b[0] + 256 * Stored(b[1..])
  }

  /** The value of bytes as an address has them, the highest first. */
  function Value(b: Bytes): nat {
    if b == [] then 0 else Value(b[..|b| - 1]) * 256 + b[|b| - 1]
  }

  function Reversed(b: Bytes): (r: Bytes)
    ensures |r| == |b| && forall i :: 0 <= i < |b| ==> r[i] == b[|b| - 1 - i]
  {
    if b == [] then [] else Reversed(b[1..]) + [b[0]]
  }

  lemma {:induction false} ReversedKeepsValue(b: Bytes)
    ensures Value(Reversed(b)) == Stored(b)
  {
    if b != [] {
      ReversedKeepsValue(b[1..]);
      var r := Reversed(b);
      assert r[..|r| - 1] == Reversed(b[1..]);
    }
  }

  /** `IP2Location_read128_row`. */
  method Read128Row(row: Bytes) returns (address: Bytes)
    requires |row| == 16
    ensures |address| == 16 && Value(address) == Stored(row)
  {
    address := [];
    var i, j := 0, 15;
    while i < 16
      invariant 0 <= i <= 16 && i + j == 15 && |address| == i
      invariant forall k :: 0 <= k < i ==> address[k] == row[15 - k]
    {
      address := address + [row[j]];
      i, j := i + 1, j - 1;
    }
    assert address == Reversed(row);
    ReversedKeepsValue(row);
  }

  lemma {:induction false} FirstDifferenceDecides(a: Bytes, b: Bytes, i: nat)
    requires |a| == |b| && i < |a| && a[..i] == b[..i] && a[i] > b[i]
    ensures Value(a) > Value(b)
    decreases |a|
  {
    var n := |a| - 1;
    if i < n {
      assert a[..n][..i] == a[..i] && b[..n][..i] == b[..i];
      FirstDifferenceDecides(a[..n], b[..n], i);
    } else {
      assert a[..n] == a[..i] && b[..n] == b[..i];
    }
  }

  /** `ipv6_compare`: comparing byte by byte is comparing the numbers. */
  method Ipv6Compare(a: Bytes, b: Bytes) returns (r: int)
    requires |a| == 16 && |b| == 16
    ensures (r > 0 <==> Value(a) > Value(b)) && (r < 0 <==> Value(a) < Value(b))
  {
    r := 0;
    var i := 0;
    while i < 16
      invariant 0 <= i <= 16 && a[..i] == b[..i]
    {
      if a[i] > b[i] {
        FirstDifferenceDecides(a, b, i);
        return 1;
      } else if a[i] < b[i] {
        FirstDifferenceDecides(b, a, i);
        return -1;
      }
      i := i + 1;
    }
    assert a == b;
  }

  // ---------------------------------------------------------------------------------------
  // The search
  // ---------------------------------------------------------------------------------------

  function AddWords(a: nat, b: nat): nat {
    (a + b) % WORD
  }

  function Decrement(a: nat): nat {
    (a + WORD - 1) % WORD
  }

  /** Row `k` ends where row `k + 1` begins; the last entry only ends the row before it. */
  predicate IsRow(from: seq<nat>, target: nat, k: nat) {
    k + 1 < |from| && from[k] <= target < from[k + 1]
  }

  ghost predicate Sorted(from: seq<nat>) {
    forall i, j :: 0 <= i < j < |from| ==> from[i] <= from[j]
  }

  /** At most one row holds a target. */
  lemma RowIsUnique(from: seq<nat>, target: nat, j: nat, k: nat)
    requires Sorted(from) && IsRow(from, target, j) && IsRow(from, target, k)
    ensures j == k
  {
  }

  /** Between the first and the last entry every target has a row. */
  lemma {:induction false} RowExists(from: seq<nat>, target: nat) returns (k: nat)
    requires |from| >= 2 && from[0] <= target < from[|from| - 1]
    ensures IsRow(from, target, k)
    decreases |from|
  {
    var n := |from| - 1;
    if from[n - 1] <= target {
      k := n - 1;
    } else {
      k := RowExists(from[..n], target);
    }
  }

  /** One turn of the loop, if it does not end there: the new bounds. */
  function Narrow(from: nat, target: nat, mid: nat, low: nat, high: nat): (nat, nat) {
    if target < from then (low, Decrement(mid)) else (AddWords(mid, 1), high)
  }

  /** If the row sought is within the bounds, the middle can be read, a turn that misses keeps the row
      within narrower bounds, and nothing wraps. */
  lemma NarrowKeepsRow(from: seq<nat>, target: nat, k: nat, low: nat, high: nat)
    requires Sorted(from) && IsRow(from, target, k) && low <= k <= high < |from| && |from| <= WORD / 2
    ensures var mid := AddWords(low, high) / 2;
      && mid == (low + high) / 2 && mid + 1 < |from|
      && (!IsRow(from, target, mid) ==>
            var (l, h) := Narrow(from[mid], target, mid, low, high);
            low <= l <= k <= h <= high && h - l < high - low)
  {
    var mid := (low + high) / 2;
    assert AddWords(low, high) == low + high;
    if mid > k {
      assert from[k + 1] <= from[mid] || k + 1 == mid;
    } else if mid < k {
      assert from[mid + 1] <= from[k] || mid + 1 == k;
    }
  }

  /** Without the row within the bounds the unsigned bound wraps: exactly if the first row is probed for
      a target before it. */
  lemma WrapsExactly(from: nat, target: nat, mid: nat, low: nat, high: nat)
    requires low <= mid <= high < WORD - 1
    ensures var (l, h) := Narrow(from, target, mid, low, high);
      (h > high || l > high + 1) <==> (mid == 0 && target < from)
  {
  }

  function Begins(rows: seq<Bytes>): (r: seq<nat>)
    ensures |r| == |rows| && forall i :: 0 <= i < |rows| ==> r[i] == Stored(rows[i])
  {
    seq(|rows|, i requires 0 <= i < |rows| => Stored(rows[i]))
  }

  /** The bounds that an index gives, if there is one, contain the row of the target. */
  ghost predicate IndexHolds(from: seq<nat>, target: nat, index: Option<(nat, nat)>) {
    index.Some? ==>
      && index.value.1 < |from|
      && forall k: nat :: IsRow(from, target, k) ==> index.value.0 <= k <= index.value.1
  }

  /** The highest address is looked up as the one before it. */
  function Sought(ip: nat): nat {
    if ip == MAX_IPV4_RANGE then ip - 1 else ip
  }

  /** `IP2Location_get_ipv4_record`, where `rows` are the first columns of the rows. Reading a row reads
      the first column of the next one, too. */
  method GetIpv4Record(rows: seq<Bytes>, ip: nat, index: Option<(nat, nat)>) returns (row: Option<nat>)
    requires 2 <= |rows| <= WORD / 2 && ip < WORD
    requires Sorted(Begins(rows)) && Stored(rows[0]) == 0 && Stored(rows[|rows| - 1]) == MAX_IPV4_RANGE
    requires IndexHolds(Begins(rows), Sought(ip), index)
    ensures row.Some? && row.value + 1 < |rows|
    ensures Stored(rows[row.value]) <= Sought(ip) < Stored(rows[row.value + 1])
    ensures Stored(rows[row.value]) <= ip
    ensures ip < Stored(rows[row.value + 1]) || ip == Stored(rows[row.value + 1]) == 0xFFFF_FFFF
  {
    ghost var from := Begins(rows);
    var target := ip;
    if target == MAX_IPV4_RANGE { target := target - 1; }
    ghost var k := RowExists(from, target);
    var low: nat, high: nat := 0, |rows| - 1;
    if index.Some? { low, high := index.value.0, index.value.1; }
    while low <= high
      invariant low <= k <= high < |rows|
      decreases high - low
    {
      NarrowKeepsRow(from, target, k, low, high);
      var mid := AddWords(low, high) / 2;
      var ipFrom, ipTo := Stored(rows[mid]), Stored(rows[mid + 1]);
      if target >= ipFrom && target < ipTo { return Some(mid); }
      if target < ipFrom { high := Decrement(mid); } else { low := AddWords(mid, 1); }
    }
    return None;
  }

  /** If the target is not before the last entry, a turn goes up, without wrapping, until the last entry
      itself is probed as if it were a row. */
  lemma ClimbToLast(from: seq<nat>, target: nat, low: nat, high: nat)
    requires Sorted(from) && 0 < |from| <= WORD / 2 && from[|from| - 1] <= target && low <= high == |from| - 1
    ensures var mid := AddWords(low, high) / 2;
      && mid == (low + high) / 2 && mid <= high && from[mid] <= target
      && (mid < high ==> from[mid + 1] <= target && AddWords(mid, 1) == mid + 1 && low < mid + 1 <= high)
      && (mid == high ==> low == high && AddWords(mid, 1) == mid + 1)
  {
    assert AddWords(low, high) == low + high;
    var mid := (low + high) / 2;
    if mid < high { assert mid + 1 == high || from[mid + 1] <= from[high]; }
    assert mid == high || from[mid] <= from[high];
  }

  /** Where row `k` ends if the last entry is taken for a row that ends at `beyond`. */
  function EndOf(from: seq<nat>, beyond: nat, k: nat): nat {
    if k + 1 < |from| then from[k + 1] else beyond
  }

  /** The bounds still hold row `k` of a target before the last entry; for any other target they reach up
      to the last entry, or have passed it because the target is not before `beyond` either. */
  ghost predicate Searching(from: seq<nat>, beyond: nat, target: nat, k: nat, low: nat, high: nat)
    requires from != []
  {
    if target < from[|from| - 1] then
      IsRow(from, target, k) && low <= k <= high < |from|
    else
      high == |from| - 1 && (low <= high || (low == |from| && beyond <= target))
  }

  /** A target before the last entry is found in its row, any other in the last entry if it is before
      `beyond`. */
  ghost predicate IsFound(from: seq<nat>, beyond: nat, target: nat, row: Option<nat>)
    requires from != []
  {
    if target < from[|from| - 1] then
      row.Some? && IsRow(from, target, row.value)
    else
      row == if target < beyond then Some(|from| - 1) else None
  }

  /** A turn can read its row. If the target is not in it, the bounds get narrower and hold what they held. */
  lemma TurnKeepsSearching(from: seq<nat>, beyond: nat, target: nat, k: nat, low: nat, high: nat)
    requires Sorted(from) && 2 <= |from| <= WORD / 2
    requires Searching(from, beyond, target, k, low, high) && low <= high
    ensures var mid := AddWords(low, high) / 2;
      && mid < |from|
      && (from[mid] <= target < EndOf(from, beyond, mid) ==> IsFound(from, beyond, target, Some(mid)))
      && (!(from[mid] <= target < EndOf(from, beyond, mid)) ==>
            var (l, h) := Narrow(from[mid], target, mid, low, high);
            Searching(from, beyond, target, k, l, h) && h + 1 - l < high + 1 - low)
  {
    if target < from[|from| - 1] {
      NarrowKeepsRow(from, target, k, low, high);
    } else {
      ClimbToLast(from, target, low, high);
    }
  }

  /** One probe of the IPv6 search: is the address below the row, is it within it? */
  method ProbeRow(rows: seq<Bytes>, beyond: Bytes, ip: Bytes, mid: nat) returns (below: bool, within: bool)
    requires mid < |rows| && |ip| == 16 && |beyond| == 16 && forall i :: 0 <= i < |rows| ==> |rows[i]| == 16
    ensures below <==> Value(ip) < Begins(rows)[mid]
    ensures within <==> Begins(rows)[mid] <= Value(ip) < EndOf(Begins(rows), Stored(beyond), mid)
  {
    var ipFrom := Read128Row(rows[mid]);
    var ipTo := Read128Row(if mid + 1 < |rows| then rows[mid + 1] else beyond);
    var cmpFrom := Ipv6Compare(ip, ipFrom);
    var cmpTo := Ipv6Compare(ip, ipTo);
    below, within := cmpFrom < 0, cmpFrom >= 0 && cmpTo < 0;
  }

  /** `IP2Location_get_ipv6_record` for an address, the highest byte first; `beyond` is what is stored
      behind the last entry, where the next row would begin. An address before the last entry gets its row.
      For any other the last entry is taken for a row that ends at `beyond`. */
  method GetIpv6Record(rows: seq<Bytes>, beyond: Bytes, ip: Bytes, index: Option<(nat, nat)>)
    returns (row: Option<nat>)
    requires 1 <= |rows| <= WORD / 2 && |ip| == 16 && |beyond| == 16
    requires forall i :: 0 <= i < |rows| ==> |rows[i]| == 16
    requires |rows| > 1 ==> Sorted(Begins(rows)) && Stored(rows[0]) <= Value(ip)
    requires IndexHolds(Begins(rows), Value(ip), index)
    requires index.Some? && Stored(rows[|rows| - 1]) <= Value(ip) ==> index.value.0 <= index.value.1 == |rows| - 1
    ensures |rows| == 1 ==> row.None?
    ensures |rows| > 1 ==> IsFound(Begins(rows), Stored(beyond), Value(ip), row)
  {
    var low: nat, high: nat := 0, |rows| - 1;
    if high == 0 { return None; }
    if index.Some? { low, high := index.value.0, index.value.1; }
    ghost var from := Begins(rows);
    ghost var target, end := Value(ip), Stored(beyond);
    ghost var k := |rows| - 1;
    if target < from[|from| - 1] { k := RowExists(from, target); }
    while low <= high
      invariant Searching(from, end, target, k, low, high)
      decreases high + 1 - low
    {
      TurnKeepsSearching(from, end, target, k, low, high);
      var mid := AddWords(low, high) / 2;
      var below, within := ProbeRow(rows, beyond, ip, mid);
      if within { return Some(mid); }
      if below { high := Decrement(mid); } else { low := AddWords(mid, 1); }
    }
    return None;
  }
}
