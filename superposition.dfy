/**
 * The belief update of the find-the-cat game: after a missed guess, every box
 * receives one "quantum cat" from each in-range neighbour that is not the
 * guessed box, and the counts are normalised into a distribution.
 *
 * Probabilities are exact `real`s here, not IEEE doubles.
 */
module Superposition {

  /** Sum of a sequence of counts, peeling off the last element. */
  function Sum(s: seq<nat>): (total: nat)
  {
    if s == [] then 0 else Sum(s[..|s| - 1]) + s[|s| - 1]
  }

  /** Sum of a sequence of probabilities, peeling off the last element. */
  function SumReal(s: seq<real>): (total: real)
  {
    if s == [] then 0.0 else SumReal(s[..|s| - 1]) + s[|s| - 1]
  }

  /** A belief distribution: every entry a probability, all of them adding up to one. */
  ghost predicate IsDistribution(s: seq<real>)
  {
    && (forall i :: 0 <= i < |s| ==> 0.0 <= s[i] <= 1.0)
    && SumReal(s) == 1.0
  }

  /**
   * The number of quantum cats that flow into box `i` of a row of `n` boxes
   * after a miss at `guess`: one from the left neighbour and one from the right
   * neighbour, each only when it exists and is not the guessed box.
   */
  function NeighbourCount(n: int, guess: int, i: int): (count: nat)
  {
    (if i - 1 >= 0 && i - 1 != guess then 1 else 0) +
    (if i + 1 < n && i + 1 != guess then 1 else 0)
  }

  /** Box `j` sends a cat into box `i` when it is an in-range neighbour other than the guess. */
  ghost predicate SendsTo(n: int, guess: int, j: int, i: int)
  {
    (j == i - 1 || j == i + 1) && 0 <= j < n && j != guess
  }

  /** The boxes that send a cat into box `i`. */
  ghost function Senders(n: int, guess: int, i: int): set<int>
  {
    set j | i - 1 <= j <= i + 1 && SendsTo(n, guess, j, i)
  }

  /** The per-box counts, before normalisation. */
  function Counts(n: nat, guess: int): (c: seq<nat>)
    ensures |c| == n
  {
    seq(n, i => NeighbourCount(n, guess, i))
  }

  /** The total number of quantum cats (`imaginaryCatCount`). */
  function TotalCount(n: nat, guess: int): (total: nat)
  {
    Sum(Counts(n, guess))
  }

  /** Divides every count by `t`. */
  function Normalise(s: seq<nat>, t: nat): (r: seq<real>)
    requires s != [] ==> t > 0
    ensures |r| == |s|
    ensures forall i :: 0 <= i < |s| ==> r[i] == s[i] as real / t as real
  {
    if s == [] then []
    else Normalise(s[..|s| - 1], t) + [s[|s| - 1] as real / t as real]
  }

  /** The distribution `calculateSuperpositions` returns for a row of `n` boxes (undefined for one box). */
  function Superpositions(n: nat, guess: int): (r: seq<real>)
    requires n != 1
    ensures |r| == n
  {
    if n >= 2 then
      TotalCountPositive(n, guess);
      Normalise(Counts(n, guess), TotalCount(n, guess))
    else
      []
  }

  // ---------------------------------------------------------------------------
  // Sums

  lemma {:induction false} SumAppend(s: seq<nat>, x: nat)
    ensures Sum(s + [x]) == Sum(s) + x
  {
    assert (s + [x])[..|s + [x]| - 1] == s;
  }

  lemma {:induction false} SumRealAppend(s: seq<real>, x: real)
    ensures SumReal(s + [x]) == SumReal(s) + x
  {
    assert (s + [x])[..|s + [x]| - 1] == s;
  }

  lemma {:induction false} ElementAtMostSum(s: seq<nat>, i: int)
    requires 0 <= i < |s|
    ensures s[i] <= Sum(s)
  {
    if i < |s| - 1 {
      ElementAtMostSum(s[..|s| - 1], i);
    }
  }

  // Steps of real arithmetic, each proved on its own: inside the larger proofs
  // below the solver runs out of resource on them.

  lemma AddFractions(a: real, b: real, t: real)
    requires t != 0.0
    ensures a / t + b / t == (a + b) / t
  {
  }

  lemma WholeFraction(t: real)
    requires t != 0.0
    ensures t / t == 1.0
  {
  }

  lemma FractionInUnit(a: real, b: real)
    requires 0.0 <= a <= b && 0.0 < b
    ensures 0.0 <= a / b <= 1.0
  {
  }

  /** Normalising by `t` divides the total by `t`. */
  lemma {:induction false} NormaliseSum(s: seq<nat>, t: nat)
    requires t > 0
    ensures SumReal(Normalise(s, t)) == Sum(s) as real / t as real
  {
    if s != [] {
      var p, last := s[..|s| - 1], s[|s| - 1];
      NormaliseSum(p, t);
      SumRealAppend(Normalise(p, t), last as real / t as real);
      AddFractions(Sum(p) as real, last as real, t as real);
    }
  }

  // ---------------------------------------------------------------------------
  // Counts

  /** Each count is the number of senders into that box, so it is at most two. */
  lemma NeighbourCountCountsSenders(n: int, guess: int, i: int)
    requires 0 <= i < n
    ensures NeighbourCount(n, guess, i) == |Senders(n, guess, i)| <= 2
  {
    var left := if i - 1 >= 0 && i - 1 != guess then {i - 1} else {};
    var right := if i + 1 < n && i + 1 != guess then {i + 1} else {};
    assert Senders(n, guess, i) == left + right;
    assert left !! right;
  }

  /**
   * How many cats the first `k` boxes receive: `k - 1` from their right-hand
   * neighbours and `min(k, n - 1)` from their left-hand neighbours, less any
   * that would have come from the guess.
   */
  function PrefixFlow(n: int, guess: int, k: int): (flow: int)
  {
    (if k == 0 then 0 else k - 1 - (if 0 <= guess < k - 1 then 1 else 0)) +
    (Min(k, n - 1) - (if 1 <= guess <= Min(k, n - 1) then 1 else 0))
  }

  lemma PrefixFlowStep(n: int, guess: int, k: int)
    requires 1 <= k <= n
    ensures PrefixFlow(n, guess, k) == PrefixFlow(n, guess, k - 1) + NeighbourCount(n, guess, k - 1)
  {
  }

  /** The first `k` counts sum to the flows into those boxes. */
  lemma {:induction false} PrefixTotal(n: nat, guess: int, k: nat)
    requires 1 <= n && k <= n
    ensures Sum(Counts(n, guess)[..k]) == PrefixFlow(n, guess, k)
  {
    var c := Counts(n, guess);
    if k == 0 {
      assert c[..0] == [];
    } else {
      PrefixTotal(n, guess, k - 1);
      assert c[..k] == c[..k - 1] + [c[k - 1]];
      SumAppend(c[..k - 1], c[k - 1]);
      PrefixFlowStep(n, guess, k);
    }
  }

  function Min(a: int, b: int): (m: int)
  {
    if a <= b then a else b
  }

  /**
   * Every box other than the guess sends one cat to each in-range neighbour, so
   * the total is the 2 * (n - 1) neighbour links minus those leaving the guess.
   */
  lemma TotalCountClosedForm(n: nat, guess: int)
    requires n >= 1
    ensures TotalCount(n, guess) ==
      2 * (n - 1) - (if 0 < guess < n then 1 else 0) - (if 0 <= guess < n - 1 then 1 else 0)
  {
    PrefixTotal(n, guess, n);
    assert Counts(n, guess)[..n] == Counts(n, guess);
  }

  /** With at least two boxes some cat moves, so the normalisation never divides by zero. */
  lemma TotalCountPositive(n: nat, guess: int)
    requires n >= 2
    ensures TotalCount(n, guess) >= 1
  {
    TotalCountClosedForm(n, guess);
  }

  // ---------------------------------------------------------------------------
  // The normalised distribution

  /** Box `i` gets its share of the total cat count. */
  lemma SuperpositionsAt(n: nat, guess: int, i: int)
    requires n >= 2 && 0 <= i < n
    ensures TotalCount(n, guess) >= 1
    ensures Superpositions(n, guess)[i] ==
      |Senders(n, guess, i)| as real / TotalCount(n, guess) as real
  {
    TotalCountPositive(n, guess);
    NeighbourCountCountsSenders(n, guess, i);
  }

  /** Dividing counts by their own total gives a probability distribution. */
  lemma NormaliseIsDistribution(s: seq<nat>)
    requires Sum(s) > 0
    ensures IsDistribution(Normalise(s, Sum(s)))
  {
    var t := Sum(s);
    var r := Normalise(s, t);
    forall i | 0 <= i < |s|
      ensures 0.0 <= r[i] <= 1.0
    {
      ElementAtMostSum(s, i);
      FractionInUnit(s[i] as real, t as real);
    }
    NormaliseSum(s, t);
    WholeFraction(t as real);
  }

  /** The updated belief is a probability distribution whenever there are at least two boxes. */
  lemma SuperpositionsIsDistribution(n: nat, guess: int)
    requires n >= 2
    ensures IsDistribution(Superpositions(n, guess))
  {
    TotalCountPositive(n, guess);
    NormaliseIsDistribution(Counts(n, guess));
  }

  /** Three boxes A, B, C and a guess at B: both outer cats move into B. */
  lemma ThreeBoxesGuessMiddle()
    ensures Counts(3, 1) == [0, 2, 0]
    ensures Superpositions(3, 1) == [0.0, 1.0, 0.0]
  {
    assert Counts(3, 1) == [0, 2, 0];
    assert TotalCount(3, 1) == 2 by {
      TotalCountClosedForm(3, 1);
    }
  }

  /** Three boxes A, B, C and a guess at A: B sends a cat both ways, C sends one to B. */
  lemma ThreeBoxesGuessEdge()
    ensures Counts(3, 0) == [1, 1, 1]
    ensures Superpositions(3, 0) == [1.0 / 3.0, 1.0 / 3.0, 1.0 / 3.0]
  {
    assert Counts(3, 0) == [1, 1, 1];
    assert TotalCount(3, 0) == 3 by {
      TotalCountClosedForm(3, 0);
    }
  }

  /** Five boxes and a guess in the middle: the guessed box still receives two cats. */
  lemma FiveBoxesGuessMiddle()
    ensures Counts(5, 2) == [1, 1, 2, 1, 1]
    ensures Superpositions(5, 2) == [1.0 / 6.0, 1.0 / 6.0, 2.0 / 6.0, 1.0 / 6.0, 1.0 / 6.0]
  {
    assert Counts(5, 2) == [1, 1, 2, 1, 1];
    assert TotalCount(5, 2) == 6 by {
      TotalCountClosedForm(5, 2);
    }
  }

  // ---------------------------------------------------------------------------
  // The algorithm

  /**
   * Recomputes the belief after a miss at `guessedPosition`. Only the length of
   * `prev` is read: the counts are written into a new array in one pass while
   * the total accumulates, and a second pass divides them in place.
   */
  method CalculateSuperpositions(prev: seq<real>, guessedPosition: int) returns (next: seq<real>)
    requires |prev| != 1
    ensures next == Superpositions(|prev|, guessedPosition)
    ensures |next| == |prev|
    ensures forall i :: 0 <= i < |next| ==> 0.0 <= next[i] <= 1.0
    ensures |prev| >= 2 ==> SumReal(next) == 1.0
  {
    var n := |prev|;
    ghost var c := Counts(n, guessedPosition);
    var newSuperpositions := new real[n];
    var imaginaryCatCount: nat := 0;
    for i := 0 to n
      invariant forall k :: 0 <= k < i ==> newSuperpositions[k] == c[k] as real
      invariant imaginaryCatCount == Sum(c[..i])
    {
      var neighbourCount: nat := 0;
      if i - 1 >= 0 && i - 1 != guessedPosition {
        neighbourCount := neighbourCount + 1;
      }
      if i + 1 < n && i + 1 != guessedPosition {
        neighbourCount := neighbourCount + 1;
      }
      newSuperpositions[i] := neighbourCount as real;
      imaginaryCatCount := imaginaryCatCount + neighbourCount;
      assert c[..i + 1] == c[..i] + [c[i]];
      SumAppend(c[..i], c[i]);
    }
    assert c[..n] == c;
    if n >= 2 {
      TotalCountPositive(n, guessedPosition);
    }
    for i := 0 to n
      invariant forall k :: 0 <= k < i ==>
        newSuperpositions[k] == c[k] as real / imaginaryCatCount as real
      invariant forall k :: i <= k < n ==> newSuperpositions[k] == c[k] as real
    {
      newSuperpositions[i] := newSuperpositions[i] / imaginaryCatCount as real;
    }
    next := newSuperpositions[..];
    if n >= 2 {
      SuperpositionsIsDistribution(n, guessedPosition);
    }
  }
}
