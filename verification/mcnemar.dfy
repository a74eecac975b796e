/** The two-sided exact McNemar test, scaled by 2^(b+c) so that it stays in the integers.

    The reference it is proved against counts coin flips: of all ways b+c discordant pairs
    could have fallen, those at least as lopsided as the one observed. */
module McNemar {
  import opened Common

  function Pow2(n: nat): (p: nat)
    ensures p >= 1
  {
    if n == 0 then 1 else 2 * Pow2(n - 1)
  }

  function Choose(n: nat, k: nat): nat {
    if k == 0 then 1 else if n == 0 then 0 else Choose(n - 1, k - 1) + Choose(n - 1, k)
  }

  /** The sum of the first k+1 binomial coefficients of row n. */
  function Tail(n: nat, k: nat): nat {
    Choose(n, k) + if k == 0 then 0 else Tail(n, k - 1)
  }

  /** The p-value times 2^(b+c); nothing when there are no discordant pairs. */
  function ExactMcNemar(b: nat, c: nat): Option<nat> {
    var n := b + c;
    if n == 0 then None else Some(Min(Pow2(n), 2 * Tail(n, Min(b, c))))
  }

  // ---------- Coin flips ----------

  /** Each outcome, followed by one more flip. */
  ghost function Extended(s: set<seq<bool>>, last: bool): set<seq<bool>> {
    set f | f in s :: f + [last]
  }

  ghost function Flips(n: nat): set<seq<bool>> {
    if n == 0 then {[]} else Extended(Flips(n - 1), true) + Extended(Flips(n - 1), false)
  }

  function Wins(f: seq<bool>): nat {
    if f == [] then 0 else Wins(f[..|f| - 1]) + if f[|f| - 1] then 1 else 0
  }

  /** How far the flips are from even. */
  function Gap(f: seq<bool>): nat {
    var d := 2 * Wins(f) - |f|;
    if d >= 0 then d else -d
  }

  ghost function Lopsided(n: nat, gap: nat): set<seq<bool>> {
    set f | f in Flips(n) && Gap(f) >= gap
  }

  ghost function WithWins(n: nat, i: int): set<seq<bool>> {
    set f | f in Flips(n) && Wins(f) == i
  }

  ghost function AtMost(n: nat, k: int): set<seq<bool>> {
    set f | f in Flips(n) && Wins(f) <= k
  }

  ghost function AtLeast(n: nat, k: int): set<seq<bool>> {
    set f | f in Flips(n) && Wins(f) >= k
  }

  lemma {:induction false} ExtendedMember(s: set<seq<bool>>, last: bool, f: seq<bool>)
    ensures f in Extended(s, last) <==> f != [] && f[|f| - 1] == last && f[..|f| - 1] in s
  {
    if f in Extended(s, last) {
      var g :| g in s && f == g + [last];
      assert f[..|f| - 1] == g;
    }
    if f != [] {
      assert f == f[..|f| - 1] + [f[|f| - 1]];
    }
  }

  lemma {:induction false} FlipsAre(n: nat, f: seq<bool>)
    ensures f in Flips(n) <==> |f| == n
  {
    if n > 0 {
      ExtendedMember(Flips(n - 1), true, f);
      ExtendedMember(Flips(n - 1), false, f);
      if f != [] {
        FlipsAre(n - 1, f[..|f| - 1]);
      }
    }
  }

  lemma {:induction false} ExtendedSize(s: set<seq<bool>>, last: bool)
    ensures |Extended(s, last)| == |s|
  {
    if s == {} {
      assert Extended(s, last) == {};
    } else {
      var f :| f in s;
      var rest := s - {f};
      ExtendedSize(rest, last);
      ExtendedMember(rest, last, f + [last]);
      assert Extended(s, last) == Extended(rest, last) + {f + [last]};
    }
  }

  lemma {:induction false} ExtendedUnion(p: set<seq<bool>>, q: set<seq<bool>>)
    ensures |Extended(p, true) + Extended(q, false)| == |p| + |q|
  {
    ExtendedSize(p, true);
    ExtendedSize(q, false);
    forall f | f in Extended(p, true) ensures f !in Extended(q, false) {
      ExtendedMember(p, true, f);
      ExtendedMember(q, false, f);
    }
  }

  lemma {:induction false} AllFlips(n: nat)
    ensures |Flips(n)| == Pow2(n)
  {
    if n > 0 {
      AllFlips(n - 1);
      ExtendedUnion(Flips(n - 1), Flips(n - 1));
    }
  }

  lemma {:induction false} SplitLast(n: nat, i: int)
    requires n > 0
    ensures WithWins(n, i) == Extended(WithWins(n - 1, i - 1), true) + Extended(WithWins(n - 1, i), false)
  {
    forall f
      ensures f in WithWins(n, i) <==> f in Extended(WithWins(n - 1, i - 1), true) + Extended(WithWins(n - 1, i), false)
    {
      ExtendedMember(WithWins(n - 1, i - 1), true, f);
      ExtendedMember(WithWins(n - 1, i), false, f);
      FlipsAre(n, f);
      if f != [] {
        FlipsAre(n - 1, f[..|f| - 1]);
      }
    }
  }

  /** Binomial coefficients count flips. */
  lemma {:induction false} ChooseCounts(n: nat, i: nat)
    ensures |WithWins(n, i)| == Choose(n, i)
  {
    if n == 0 {
      assert WithWins(0, i) == if i == 0 then {[]} else {};
    } else {
      ChooseCounts(n - 1, i);
      if i > 0 {
        ChooseCounts(n - 1, i - 1);
      }
      CountsAdd(n, i);
    }
  }

  /** The flips that end in a win and those that do not. */
  lemma {:induction false} CountsAdd(n: nat, i: nat)
    requires n > 0
    ensures |WithWins(n, i)| == |WithWins(n - 1, i)| + if i == 0 then 0 else |WithWins(n - 1, i - 1)|
  {
    SplitLast(n, i);
    ExtendedUnion(WithWins(n - 1, i - 1), WithWins(n - 1, i));
    if i == 0 {
      NoFewerWins(n - 1);
    }
  }

  lemma {:induction false} NoFewerWins(n: nat)
    ensures WithWins(n, -1) == {}
  {
  }

  lemma {:induction false} TailCounts(n: nat, k: nat)
    ensures |AtMost(n, k)| == Tail(n, k)
  {
    ChooseCounts(n, k);
    if k == 0 {
      assert AtMost(n, 0) == WithWins(n, 0);
    } else {
      TailCounts(n, k - 1);
      assert AtMost(n, k) == AtMost(n, k - 1) + WithWins(n, k);
      assert AtMost(n, k - 1) !! WithWins(n, k);
    }
  }

  function Negate(f: seq<bool>): (r: seq<bool>)
    ensures |r| == |f|
    ensures forall i | 0 <= i < |f| :: r[i] == !f[i]
  {
    seq(|f|, i requires 0 <= i < |f| => !f[i])
  }

  lemma {:induction false} NegateWins(f: seq<bool>)
    ensures Wins(Negate(f)) == |f| - Wins(f)
  {
    if f != [] {
      NegateWins(f[..|f| - 1]);
      assert Negate(f)[..|f| - 1] == Negate(f[..|f| - 1]);
    }
  }

  lemma {:induction false} NegateTwice(f: seq<bool>)
    ensures Negate(Negate(f)) == f
  {
  }

  ghost function Negated(s: set<seq<bool>>): set<seq<bool>> {
    set f | f in s :: Negate(f)
  }

  lemma {:induction false} NegatedMember(s: set<seq<bool>>, f: seq<bool>)
    ensures f in Negated(s) <==> Negate(f) in s
  {
    NegateTwice(f);
    if f in Negated(s) {
      var g :| g in s && f == Negate(g);
      NegateTwice(g);
    }
  }

  lemma {:induction false} NegatedSize(s: set<seq<bool>>)
    ensures |Negated(s)| == |s|
  {
    if s == {} {
      assert Negated(s) == {};
    } else {
      var f :| f in s;
      var rest := s - {f};
      NegatedSize(rest);
      NegatedMember(rest, Negate(f));
      NegateTwice(f);
      assert Negated(s) == Negated(rest) + {Negate(f)};
    }
  }

  /** The binomial distribution at one half is symmetric. */
  lemma {:induction false} TailsMirror(n: nat, k: nat)
    requires k <= n
    ensures |AtLeast(n, n - k)| == |AtMost(n, k)|
  {
    NegatedSize(AtMost(n, k));
    forall f ensures f in Negated(AtMost(n, k)) <==> f in AtLeast(n, n - k) {
      NegatedMember(AtMost(n, k), f);
      FlipsAre(n, f);
      FlipsAre(n, Negate(f));
      NegateWins(f);
    }
    assert Negated(AtMost(n, k)) == AtLeast(n, n - k);
  }

  /** Someone wins exactly i times, for every i up to n. */
  lemma {:induction false} Witness(n: nat, i: nat) returns (f: seq<bool>)
    requires i <= n
    ensures f in Flips(n) && Wins(f) == i
  {
    if n == 0 {
      f := [];
    } else {
      f := Witness(n - 1, if i == 0 then 0 else i - 1);
      if i == 0 {
        assert (f + [false])[..n - 1] == f by { FlipsAre(n - 1, f); }
        f := f + [false];
      } else {
        assert (f + [true])[..n - 1] == f by { FlipsAre(n - 1, f); }
        f := f + [true];
      }
      FlipsAre(n, f);
    }
  }

  /** Both tails together are the flips at least as lopsided as b against c; they overlap
      only when b and c are equal. */
  lemma {:induction false} TwoTails(b: nat, c: nat)
    ensures var n, k := b + c, Min(b, c);
            && Lopsided(n, n - 2 * k) == AtMost(n, k) + AtLeast(n, n - k)
            && AtMost(n, k) * AtLeast(n, n - k) == (if b == c then WithWins(n, k) else {})
  {
    var n, k := b + c, Min(b, c);
    forall f | f in Flips(n) ensures f in Lopsided(n, n - 2 * k) <==> f in AtMost(n, k) + AtLeast(n, n - k) {
      FlipsAre(n, f);
    }
  }

  lemma {:induction false} SubsetSize<T>(a: set<T>, b: set<T>)
    requires a <= b
    ensures |a| <= |b|
    ensures a != b ==> |a| < |b|
  {
    assert b == a + (b - a);
    assert |b| == |a| + |b - a|;
  }

  // ---------- What the test computes ----------

  lemma {:induction false} UnionSize<T>(a: set<T>, b: set<T>)
    ensures |a + b| == |a| + |b| - |a * b|
  {
  }

  /** The uncapped sum is the number of lopsided outcomes, with their overlap. */
  lemma {:induction false} BothTails(b: nat, c: nat)
    ensures var n, k := b + c, Min(b, c);
            && 2 * Tail(n, k) == |AtMost(n, k)| + |AtLeast(n, n - k)|
            && 2 * Tail(n, k) == |Lopsided(n, n - 2 * k)| + (if b == c then |WithWins(n, k)| else 0)
  {
    var n, k: nat := b + c, Min(b, c);
    TailCounts(n, k);
    TailsMirror(n, k);
    TwoTailsSize(b, c);
  }

  lemma {:induction false} TwoTailsSize(b: nat, c: nat)
    ensures var n, k := b + c, Min(b, c);
            |AtMost(n, k)| + |AtLeast(n, n - k)| == |Lopsided(n, n - 2 * k)| + (if b == c then |WithWins(n, k)| else 0)
  {
    var n, k: nat := b + c, Min(b, c);
    TwoTails(b, c);
    UnionSize(AtMost(n, k), AtLeast(n, n - k));
  }

  /** No outcome is less lopsided than not at all. */
  lemma {:induction false} LopsidedAtMostAll(n: nat, gap: nat)
    ensures |Lopsided(n, gap)| <= Pow2(n) == |Flips(n)|
    ensures gap == 0 ==> |Lopsided(n, gap)| == Pow2(n)
  {
    AllFlips(n);
    SubsetSize(Lopsided(n, gap), Flips(n));
    if gap == 0 {
      assert Lopsided(n, gap) == Flips(n);
    }
  }

  /** The p-value is exactly the share of outcomes at least as lopsided as the observed one:
      P(X <= min) + P(X >= max), with the overlap counted once. */
  lemma {:induction false} CountsLopsidedOutcomes(b: nat, c: nat)
    requires b + c > 0
    ensures ExactMcNemar(b, c) == Some(|Lopsided(b + c, b + c - 2 * Min(b, c))|)
    ensures |Lopsided(b + c, b + c - 2 * Min(b, c))| <= Pow2(b + c) == |Flips(b + c)|
  {
    var n, gap := b + c, b + c - 2 * Min(b, c);
    BothTails(b, c);
    LopsidedAtMostAll(n, gap);
    var sum, all, some := 2 * Tail(n, Min(b, c)), Pow2(n), |Lopsided(n, gap)|;
    if b == c {
      assert gap == 0 && sum >= some == all;
    } else {
      assert sum == some <= all;
    }
    assert Min(all, sum) == some;
  }

  /** The sum of both tails, uncapped, for unequal counts; the cap at one matters exactly
      when the counts are equal. */
  lemma {:induction false} CapMattersIff(b: nat, c: nat)
    requires b + c > 0
    ensures var n, k := b + c, Min(b, c);
            && 2 * Tail(n, k) == |AtMost(n, k)| + |AtLeast(n, n - k)|
            && (2 * Tail(n, k) > Pow2(n) <==> b == c)
  {
    var n, k := b + c, Min(b, c);
    BothTails(b, c);
    LopsidedAtMostAll(n, n - 2 * k);
    var f := Witness(n, k);
    assert f in WithWins(n, k);
  }

  /** An outcome as even as n flips can be. */
  lemma {:induction false} EvenOutcome(n: nat) returns (f: seq<bool>)
    ensures f in Flips(n) && Gap(f) == n % 2
  {
    f := Witness(n, n / 2);
    FlipsAre(n, f);
  }

  /** The lopsided outcomes are all outcomes exactly when an even split, or the nearest to
      it, is lopsided enough. */
  lemma {:induction false} AllLopsidedIff(n: nat, gap: nat)
    requires gap % 2 == n % 2
    ensures |Lopsided(n, gap)| == Pow2(n) <==> gap <= 1
  {
    AllFlips(n);
    SubsetSize(Lopsided(n, gap), Flips(n));
    assert Lopsided(n, gap) == Flips(n) <==> gap <= 1 by {
      LopsidedIsAllIff(n, gap);
    }
  }

  lemma {:induction false} LopsidedIsAllIff(n: nat, gap: nat)
    requires gap % 2 == n % 2
    ensures Lopsided(n, gap) == Flips(n) <==> gap <= 1
  {
    if gap <= 1 {
      forall f | f in Flips(n) ensures Gap(f) >= gap {
        FlipsAre(n, f);
      }
    } else {
      var f := EvenOutcome(n);
      assert f in Flips(n) && f !in Lopsided(n, gap);
    }
  }

  /** The p-value lies in (0, 1], does not depend on which side won, and is one exactly when
      the counts differ by at most one. */
  lemma {:induction false} RangeAndSymmetry(b: nat, c: nat)
    requires b + c > 0
    ensures 0 < ExactMcNemar(b, c).value <= Pow2(b + c)
    ensures ExactMcNemar(c, b) == ExactMcNemar(b, c)
    ensures ExactMcNemar(b, c).value == Pow2(b + c) <==> -1 <= b - c <= 1
  {
    var n, gap := b + c, b + c - 2 * Min(b, c);
    CountsLopsidedOutcomes(b, c);
    assert c + b == n && Min(c, b) == Min(b, c);
    var none := Witness(n, 0);
    FlipsAre(n, none);
    assert none in Lopsided(n, gap);
    AllLopsidedIff(n, gap);
  }

  /** Among results on the same number of discordant pairs, the more lopsided one has the
      strictly smaller p-value. */
  lemma {:induction false} MoreLopsidedIsSmaller(b: nat, c: nat, b': nat, c': nat)
    requires b + c == b' + c' > 0 && Min(b', c') < Min(b, c)
    ensures ExactMcNemar(b', c').value < ExactMcNemar(b, c).value
  {
    var n := b + c;
    CountsLopsidedOutcomes(b, c);
    CountsLopsidedOutcomes(b', c');
    FewerAreMoreLopsided(n, Min(b', c'), Min(b, c));
  }

  lemma {:induction false} FewerAreMoreLopsided(n: nat, i: nat, k: nat)
    requires i < k && 2 * k <= n
    ensures |Lopsided(n, n - 2 * i)| < |Lopsided(n, n - 2 * k)|
  {
    var f := Witness(n, k);
    FlipsAre(n, f);
    var less, more := Lopsided(n, n - 2 * i), Lopsided(n, n - 2 * k);
    assert f in more && f !in less;
    SubsetSize(less, more);
  }

  /** There is a p-value exactly when some pair is discordant. */
  lemma {:induction false} ValueIff(b: nat, c: nat)
    ensures ExactMcNemar(b, c).None? <==> b == 0 && c == 0
  {
    if b + c > 0 {
      RangeAndSymmetry(b, c);
    }
  }
}
