/**
 * Pawn numbering and ownership fixed by the `Board` constructor: pawns are
 * numbered `1 .. 2n` and pawn `k` belongs to player `(k - 1) mod n + 1`.
 */
module Roster {

  /** Number of pawns a board for `n` players creates: `range(1, 2n + 1)` is empty unless `n > 0`. */
  function PawnCount(n: int): nat {
    if n > 0 then 2 * n else 0
  }

  /** Owner of pawn number `k` among `n` players (`n > 0`, so Python's `%` agrees with Dafny's). */
  function OwnerOf(k: int, n: int): (q: int)
    requires n > 0
    ensures 1 <= q <= n
  {
    (k - 1) % n + 1
  }

  /** Owners of the pawns in roster order: entry `i` belongs to pawn number `i + 1`. */
  function Owners(n: int): (owners: seq<int>)
    ensures |owners| == PawnCount(n)
  {
    if n <= 0 then [] else seq(2 * n, i => OwnerOf(i + 1, n))
  }

  /** Number of occurrences of `q` in `s`. */
  function Count(s: seq<int>, q: int): nat {
    if s == [] then 0 else (if s[0] == q then 1 else 0) + Count(s[1..], q)
  }

  /** Players `1 .. n` in order: one round of the roster. */
  function Round(n: nat): (r: seq<int>)
    ensures |r| == n
  {
    seq(n, i => i + 1)
  }

  /** Player `q` owns exactly pawns `q` and `q + n` (e.g. pawns 1 and 3 for player 1 of 2). */
  lemma OwnedPawnNumbers(k: int, n: int, q: int)
    requires n > 0 && 1 <= k <= 2 * n && 1 <= q <= n
    ensures OwnerOf(k, n) == q <==> k == q || k == q + n
  {
  }

  /** The roster of owners is two rounds of the players in order. */
  lemma RosterIsTwoRounds(n: int)
    requires n > 0
    ensures Owners(n) == Round(n) + Round(n)
  {
    var owners, rounds := Owners(n), Round(n) + Round(n);
    forall i | 0 <= i < 2 * n
      ensures owners[i] == rounds[i]
    {
      if i < n {
        assert i % n == i;
        assert rounds[i] == Round(n)[i] == i + 1;
      } else {
        ModShift(i - n, n);
        assert rounds[i] == Round(n)[i - n] == i - n + 1;
      }
    }
    assert |owners| == |rounds|;
  }

  lemma ModShift(a: int, n: int)
    requires n > 0 && 0 <= a < n
    ensures (a + n) % n == a
  {
  }

  lemma {:induction false} CountConcat(a: seq<int>, b: seq<int>, q: int)
    ensures Count(a + b, q) == Count(a, q) + Count(b, q)
  {
    if a == [] {
      assert a + b == b;
    } else {
      assert (a + b)[1..] == a[1..] + b;
      CountConcat(a[1..], b, q);
    }
  }

  lemma {:induction false} CountRound(n: nat, q: int)
    ensures Count(Round(n), q) == if 1 <= q <= n then 1 else 0
  {
    if n > 0 {
      assert Round(n) == Round(n - 1) + [n];
      CountConcat(Round(n - 1), [n], q);
      CountRound(n - 1, q);
      assert Count([n], q) == if q == n then 1 else 0;
    }
  }

  /** Every player owns exactly two pawns, and numbers outside `1 .. n` own none. */
  lemma EachPlayerOwnsTwoPawns(n: int, q: int)
    ensures Count(Owners(n), q) == if 1 <= q <= n then 2 else 0
  {
    if n > 0 {
      RosterIsTwoRounds(n);
      CountConcat(Round(n), Round(n), q);
      CountRound(n, q);
    }
  }
}
