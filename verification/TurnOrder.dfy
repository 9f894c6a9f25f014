/** What the turn-taking programs share: their loops, and the cyclic order in which threads 0 to k - 1 print. */
module TurnOrder {

  function Succ(k: nat, x: nat): (y: nat)
    requires x < k
    ensures y < k
  {
    if x + 1 < k then x + 1 else 0
  }

  /** Where a thread is after `rounds` of its `n` iterations: back in the loop, or behind it. */
  function LoopHead<Pc>(n: nat, rounds: nat, again: Pc, after: Pc): Pc {
    if rounds < n then again else after
  }

  predicate Everyone<Pc(==)>(pcs: seq<Pc>, pc: Pc) {
    forall x :: 0 <= x < |pcs| ==> pcs[x] == pc
  }

  /** Steps in `m` rounds of `c` steps each. */
  function Quota(c: nat, m: nat): nat {
    if m == 0 then 0 else Quota(c, m - 1) + c
  }

  lemma {:induction false} QuotaIs(c: nat, m: nat)
    ensures Quota(c, m) == c * m
  {
    if m > 0 {
      QuotaIs(c, m - 1);
      assert c * (m - 1) + c == c * m;
    }
  }

  /** 0, 1, ..., i - 1. */
  function Upto(i: nat): (s: seq<nat>)
    ensures |s| == i && forall x :: 0 <= x < i ==> s[x] == x
  {
    if i == 0 then [] else Upto(i - 1) + [i - 1]
  }

  /** `r` full rounds of `k` threads. */
  function Rounds(k: nat, r: nat): seq<nat> {
    if r == 0 then [] else Rounds(k, r - 1) + Upto(k)
  }

  /** `r` full rounds and the first `i` turns of the next. */
  function Turns(k: nat, r: nat, i: nat): seq<nat> {
    Rounds(k, r) + Upto(i)
  }

  lemma TurnsStart(k: nat, r: nat)
    ensures Turns(k, r, 0) == Rounds(k, r)
  {}

  lemma TurnsMore(k: nat, r: nat, i: nat)
    ensures Turns(k, r, i) + [i] == Turns(k, r, i + 1)
    ensures i + 1 == k ==> Turns(k, r, i + 1) == Turns(k, r + 1, 0)
  {
    assert Rounds(k, r) + (Upto(i) + [i]) == Turns(k, r, i) + [i];
    TurnsStart(k, r + 1);
  }

  lemma {:induction false} RoundsPrefix(k: nat, r: nat, n: nat)
    requires r <= n
    ensures Rounds(k, r) <= Rounds(k, n)
    decreases n
  {
    if r < n { RoundsPrefix(k, r, n - 1); }
  }

  lemma {:induction false} UptoPrefix(i: nat, k: nat)
    requires i <= k
    ensures Upto(i) <= Upto(k)
    decreases k
  {
    if i < k { UptoPrefix(i, k - 1); }
  }

  /** A run that has printed some turns of `n` rounds has printed the beginning of those rounds. */
  lemma TurnsPrefix(k: nat, r: nat, i: nat, n: nat)
    requires i <= k && (r < n || (r == n && i == 0))
    ensures Turns(k, r, i) <= Rounds(k, n)
  {
    if r < n {
      UptoPrefix(i, k);
      RoundsPrefix(k, r + 1, n);
    } else {
      TurnsStart(k, n);
    }
  }

  lemma {:induction false} RoundsLength(k: nat, r: nat)
    ensures |Rounds(k, r)| == k * r
  {
    if r > 0 {
      RoundsLength(k, r - 1);
      assert k * (r - 1) + k == k * r;
    }
  }

  /** The thread after `x` in the circle of `k`. */
  predicate ComesNext(k: nat, x: nat, y: nat) {
    if x + 1 == k then y == 0 else y == x + 1
  }

  /** Rounds begin with 0, and each turn is followed by the next thread's. */
  lemma {:induction false} RoundsAreCyclic(k: nat, r: nat, p: nat)
    requires 0 < k
    ensures p < |Rounds(k, r)| ==> Rounds(k, r)[p] < k && (p == 0 ==> Rounds(k, r)[p] == 0)
    ensures p + 1 < |Rounds(k, r)| ==> ComesNext(k, Rounds(k, r)[p], Rounds(k, r)[p + 1])
  {
    if r > 0 {
      RoundsAreCyclic(k, r - 1, p);
      if |Rounds(k, r - 1)| == p + 1 {
        assert Rounds(k, r - 1) == Rounds(k, r - 2) + Upto(k);
      }
    }
  }
}
