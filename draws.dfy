/**
 * Python's `random` helpers the game calls, driven by explicit draws instead
 * of the Mersenne Twister: a draw is an arbitrary natural number, and each
 * helper maps it into its range the way the library's `randbelow` would.
 */
module Draws {

  /** `randint(a, b)` on a non-empty range: some value of `[a, b]`. */
  function RandInt(a: int, b: int, d: nat): (r: int)
    requires a <= b
    ensures a <= r <= b
  {
    a + d % (b - a + 1)
  }

  /** `random.choice(s)` on a non-empty sequence: one of its elements. */
  function Choice<T>(s: seq<T>, d: nat): (r: T)
    requires |s| > 0
    ensures r in s
  {
    s[d % |s|]
  }

  /** The sequence with positions `i` and `j` exchanged. */
  function Swap<T>(s: seq<T>, i: nat, j: nat): (r: seq<T>)
    requires i < |s| && j < |s|
    ensures |r| == |s| && r[i] == s[j] && r[j] == s[i]
    ensures forall k :: 0 <= k < |s| && k != i && k != j ==> r[k] == s[k]
  {
    s[i := s[j]][j := s[i]]
  }

  /** No element occurs twice. */
  predicate Distinct<T(==)>(s: seq<T>) {
    forall i, j :: 0 <= i < j < |s| ==> s[i] != s[j]
  }

  lemma SwapMultiset<T>(s: seq<T>, i: nat, j: nat)
    requires i < |s| && j < |s|
    ensures multiset(Swap(s, i, j)) == multiset(s)
  {
    if i != j {
      var t := s[i := s[j]];
      assert multiset(t) == multiset(s) - multiset{s[i]} + multiset{s[j]};
      assert t[j] == s[j];
    }
  }

  lemma SwapDistinct<T>(s: seq<T>, i: nat, j: nat)
    requires i < |s| && j < |s| && Distinct(s)
    ensures Distinct(Swap(s, i, j))
  {
    var r := Swap(s, i, j);
    forall a, b | 0 <= a < b < |r| ensures r[a] != r[b] {
      var a' := if a == i then j else if a == j then i else a;
      var b' := if b == i then j else if b == j then i else b;
      assert r[a] == s[a'] && r[b] == s[b'] && a' != b';
    }
  }

  /** Exchanging two positions keeps the elements and keeps them distinct. */
  lemma SwapPreserves<T>(s: seq<T>, i: nat, j: nat)
    requires i < |s| && j < |s|
    ensures multiset(Swap(s, i, j)) == multiset(s)
    ensures Distinct(s) ==> Distinct(Swap(s, i, j))
  {
    SwapMultiset(s, i, j);
    if Distinct(s) { SwapDistinct(s, i, j); }
  }

  /**
   * `random.shuffle` as the library writes it: for `i` from `len - 1` down to
   * 1, exchange position `i` with a position `j` drawn from `[0, i]`. The
   * `k`-th exchange uses draw `draw(k)`.
   */
  function Shuffle<T(==)>(s: seq<T>, draw: nat -> nat): (r: seq<T>)
    ensures |r| == |s| && multiset(r) == multiset(s)
    ensures Distinct(s) ==> Distinct(r)
  {
    ShuffleDown(s, |s| - 1, draw)
  }

  /** The exchanges of `Shuffle` for positions `i, i - 1, ..., 1`. */
  function ShuffleDown<T(==)>(s: seq<T>, i: int, draw: nat -> nat): (r: seq<T>)
    requires i < |s|
    ensures |r| == |s| && multiset(r) == multiset(s)
    ensures Distinct(s) ==> Distinct(r)
    decreases i
  {
    if i < 1 then s
    else
      var j := draw(|s| - 1 - i) % (i + 1);
      SwapPreserves(s, i, j);
      ShuffleDown(Swap(s, i, j), i - 1, draw)
  }

  /** Every element of a shuffled sequence comes from the original, and every original element survives. */
  lemma {:induction false} ShuffleMembers<T>(s: seq<T>, draw: nat -> nat, x: T)
    ensures x in Shuffle(s, draw) <==> x in s
  {
    var r := Shuffle(s, draw);
    assert x in r <==> x in multiset(r);
    assert x in s <==> x in multiset(s);
  }
}
