/**
 * The game state of find-the-cat: a row of boxes, the hidden cat, the day
 * counter, the win flag and the belief shown to the player.
 *
 * `Math.random()` is replaced by a parameter `random` in [0, 1), so every
 * contract holds for every value the generator could produce.
 */
module CatGame {
  import opened Superposition

  /** `Math.floor(random * len)`: the index a random draw picks out of `len` slots. */
  function RandomIndex(random: real, len: nat): (k: int)
    requires 0.0 <= random < 1.0
    ensures len >= 1 ==> 0 <= k < len
    ensures len == 0 ==> k == 0
  {
    ScaledBelow(random, len);
    (random * len as real).Floor
  }

  lemma ScaledBelow(random: real, len: nat)
    requires 0.0 <= random < 1.0
    ensures 0.0 <= random * len as real
    ensures len >= 1 ==> random * len as real < len as real
    ensures len == 0 ==> random * len as real == 0.0
  {
  }

  /** `n` equal shares of `1 / n`: the belief at the start of a game. */
  function Uniform(n: nat): (u: seq<real>)
    ensures |u| == n
  {
    seq(n, i requires 0 <= i < n => 1.0 / n as real)
  }

  /** The boxes the cat may move to from `cat` in a row of `n` boxes, left one first. */
  function Choices(cat: int, n: int): (c: seq<int>)
  {
    (if cat > 0 then [cat - 1] else []) + (if cat < n - 1 then [cat + 1] else [])
  }

  // ---------------------------------------------------------------------------
  // Properties of the building blocks

  lemma {:induction false} SumRealConstant(n: nat, x: real)
    ensures SumReal(seq(n, i => x)) == n as real * x
  {
    if n > 0 {
      var s := seq(n, i => x);
      assert s[..n - 1] == seq(n - 1, i => x);
      SumRealConstant(n - 1, x);
    }
  }

  /** A fresh game's belief is a probability distribution. */
  lemma UniformIsDistribution(n: nat)
    requires n >= 1
    ensures IsDistribution(Uniform(n))
  {
    var x := 1.0 / n as real;
    assert Uniform(n) == seq(n, i => x);
    SumRealConstant(n, x);
    FractionInUnit(1.0, n as real);
    assert n as real * (1.0 / n as real) == 1.0;
  }

  /** The cat only ever moves to an in-range box right next to it. */
  lemma ChoicesAreNeighbours(cat: int, n: int)
    requires 0 <= cat < n
    ensures forall j :: j in Choices(cat, n) <==> 0 <= j < n && (j == cat - 1 || j == cat + 1)
    ensures |Choices(cat, n)| == (if n == 1 then 0 else if 0 < cat < n - 1 then 2 else 1)
  {
  }

  // ---------------------------------------------------------------------------
  // The game

  class Game {
    var numberOfBoxes: int
    var catPosition: int
    var days: int
    var superpositions: seq<real>
    var isWin: bool

    /**
     * The belief has one entry per box and is a distribution when there is a
     * box; the cat sits in a box (at index 0 when there are none); days start at 1.
     */
    ghost predicate Valid()
      reads this
    {
      && numberOfBoxes >= 0
      && days >= 1
      && |superpositions| == numberOfBoxes
      && (if numberOfBoxes == 0 then catPosition == 0 else 0 <= catPosition < numberOfBoxes)
      && (numberOfBoxes >= 1 ==> IsDistribution(superpositions))
    }

    /** The component's initial state: five boxes. */
    constructor (random: real)
      requires 0.0 <= random < 1.0
      ensures Valid()
      ensures numberOfBoxes == 5 && catPosition == RandomIndex(random, 5)
      ensures days == 1 && !isWin && superpositions == Uniform(5)
    {
      numberOfBoxes := 5;
      catPosition := RandomIndex(random, 5);
      days := 1;
      superpositions := Uniform(5);
      isWin := false;
      UniformIsDistribution(5);
    }

    /** Starts a new game with `n` boxes; a negative count is ignored. */
    method SetBoxes(n: int, random: real)
      requires Valid() && 0.0 <= random < 1.0
      modifies this
      ensures Valid()
      ensures n < 0 ==> unchanged(this)
      ensures n >= 0 ==>
        && numberOfBoxes == n
        && catPosition == RandomIndex(random, n)
        && days == 1
        && !isWin
        && superpositions == Uniform(n)
    {
      if n < 0 {
        return;
      }
      catPosition := RandomIndex(random, n);
      numberOfBoxes := n;
      days := 1;
      isWin := false;
      superpositions := Uniform(n);
      if n >= 1 {
        UniformIsDistribution(n);
      }
    }

    /**
     * The player opens box `guessedPos`. A hit sets the win flag and nothing
     * else; a miss advances the day, moves the cat to the neighbour `random`
     * picks and recomputes the belief. Guesses are accepted after a win too.
     */
    method GuessCatPositionOnBox(guessedPos: int, random: real)
      requires Valid() && 0.0 <= random < 1.0
      requires guessedPos != catPosition ==> numberOfBoxes >= 2
      modifies this
      ensures Valid()
      ensures old(catPosition) == guessedPos ==>
        && isWin
        && days == old(days)
        && catPosition == old(catPosition)
        && numberOfBoxes == old(numberOfBoxes)
        && superpositions == old(superpositions)
      ensures old(catPosition) != guessedPos ==>
        && days == old(days) + 1
        && numberOfBoxes == old(numberOfBoxes)
        && isWin == old(isWin)
        && 0 <= catPosition < numberOfBoxes
        && (catPosition == old(catPosition) - 1 || catPosition == old(catPosition) + 1)
        && catPosition == Choices(old(catPosition), numberOfBoxes)[RandomIndex(random, |Choices(old(catPosition), numberOfBoxes)|)]
        && superpositions == Superpositions(numberOfBoxes, guessedPos)
    {
      if guessedPos == catPosition {
        isWin := true;
        return;
      }
      days := days + 1;
      var newCatPosition := PickAdjacentBox(random);
      catPosition := newCatPosition;
      superpositions := CalculateSuperpositions(superpositions, guessedPos);
    }

    /** The box the cat moves to after a miss: one of its in-range neighbours, chosen by `random`. */
    method PickAdjacentBox(random: real) returns (newCatPosition: int)
      requires Valid() && 0.0 <= random < 1.0
      requires numberOfBoxes >= 2
      ensures 0 <= newCatPosition < numberOfBoxes
      ensures newCatPosition == catPosition - 1 || newCatPosition == catPosition + 1
      ensures newCatPosition == Choices(catPosition, numberOfBoxes)[RandomIndex(random, |Choices(catPosition, numberOfBoxes)|)]
    {
      var choices: seq<int> := [];
      if catPosition > 0 {
        choices := choices + [catPosition - 1];
      }
      if catPosition < numberOfBoxes - 1 {
        choices := choices + [catPosition + 1];
      }
      ChoicesAreNeighbours(catPosition, numberOfBoxes);
      assert choices == Choices(catPosition, numberOfBoxes);
      newCatPosition := choices[RandomIndex(random, |choices|)];
      assert newCatPosition in choices;
    }
  }

  /**
   * A win does not end the game: from a fresh game whose cat is in box 0, a
   * hit at box 0 followed by a guess at box 1 still counts a day.
   */
  method GuessAfterWin() returns (won: bool, days: int, boxes: int)
    ensures won && days == 2 && boxes == 5
  {
    var game := new Game(0.0);
    game.GuessCatPositionOnBox(0, 0.0);
    game.GuessCatPositionOnBox(1, 0.0);
    won, days, boxes := game.isWin, game.days, game.numberOfBoxes;
  }
}
