/** Facts about sequences used as intrusive lists: an element is in a list at most once,
    and unlinking it keeps the order of all others. */
module Lists {

  datatype Option<+T> = None | Some(value: T)

  ghost predicate Distinct<T>(s: seq<T>) {
    forall i, j :: 0 <= i < j < |s| ==> s[i] != s[j]
  }

  /** The list after `x` has left it; unlinking an element that is not linked does nothing. */
  function Unlink<T(==)>(s: seq<T>, x: T): seq<T> {
    if s == [] then []
    else if s[0] == x then s[1..]
    else [s[0]] + Unlink(s[1..], x)
  }

  /** Where the i-th element of `Unlink(s, x)` stood in `s`. */
  ghost function Before<T>(s: seq<T>, x: T, i: nat): nat {
    if s == [] then i
    else if s[0] == x then i + 1
    else if i == 0 then 0
    else Before(s[1..], x, i - 1) + 1
  }

  lemma {:induction false} UnlinkKeepsOrder<T>(s: seq<T>, x: T, i: nat)
    requires i < |Unlink(s, x)|
    ensures Before(s, x, i) < |s| && Unlink(s, x)[i] == s[Before(s, x, i)]
  {
    if s[0] != x && i != 0 {
      UnlinkKeepsOrder(s[1..], x, i - 1);
    }
  }

  lemma {:induction false} BeforeMonotone<T>(s: seq<T>, x: T, i: nat, j: nat)
    requires i < j
    ensures Before(s, x, i) < Before(s, x, j)
  {
    if s != [] && s[0] != x && i != 0 {
      BeforeMonotone(s[1..], x, i - 1, j - 1);
    }
  }

  /** Two elements left after unlinking stood in the same order before. */
  lemma UnlinkPair<T>(s: seq<T>, x: T, i: nat, j: nat)
    requires i < j < |Unlink(s, x)|
    ensures Before(s, x, i) < Before(s, x, j) < |s|
    ensures Unlink(s, x)[i] == s[Before(s, x, i)] && Unlink(s, x)[j] == s[Before(s, x, j)]
  {
    UnlinkKeepsOrder(s, x, i);
    UnlinkKeepsOrder(s, x, j);
    BeforeMonotone(s, x, i, j);
  }

  lemma {:induction false} UnlinkMembers<T>(s: seq<T>, x: T)
    requires Distinct(s)
    ensures Distinct(Unlink(s, x))
    ensures forall y :: y in Unlink(s, x) <==> y in s && y != x
  {
    forall i, j | 0 <= i < j < |Unlink(s, x)|
      ensures Unlink(s, x)[i] != Unlink(s, x)[j]
    {
      UnlinkPair(s, x, i, j);
    }
    if s != [] {
      assert s == [s[0]] + s[1..];
      if s[0] != x {
        UnlinkMembers(s[1..], x);
      }
    }
  }

  lemma {:induction false} UnlinkAbsent<T>(s: seq<T>, x: T)
    requires x !in s
    ensures Unlink(s, x) == s
  {
    if s != [] { UnlinkAbsent(s[1..], x); }
  }
}
