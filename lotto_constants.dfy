/**
 * The game's constants and the ball colour of a number: the colour list is
 * indexed by the number's decade, `(number - 1) / 10` with Swift's
 * truncating division, and indexing outside the list traps.
 */
module LottoConstants {
  import opened SwiftText

  /** The SwiftUI colours the app paints with. */
  datatype Color = Yellow | Blue | Red | Black | Green | Orange | Gray

  /** How many numbers a game has. */
  const LotteryNumberSize: int := 6
  /** Numbers are drawn from 1 to this. */
  const MaximumNumber: int := 45

  const Colors: seq<Color> := [Yellow, Blue, Red, Black, Green]

  function BallColorIndex(number: int): int {
    SwiftDiv(number - 1, 10)
  }

  /** The colour of a ball: one colour per block of ten numbers. */
  function BallColor(number: int): (c: Color)
    requires 0 <= BallColorIndex(number) < |Colors|
    ensures c == Yellow <==> number <= 10
    ensures c == Blue <==> 11 <= number <= 20
    ensures c == Red <==> 21 <= number <= 30
    ensures c == Black <==> 31 <= number <= 40
    ensures c == Green <==> 41 <= number
  {
    Colors[BallColorIndex(number)]
  }

  /**
   * The colour list is indexed in bounds exactly for -8..50; in particular
   * for every lottery number 1..45, and not from 51 on.
   */
  lemma BallColorDefinedExactly(number: int)
    ensures 0 <= BallColorIndex(number) < |Colors| <==> -8 <= number <= 50
  {
  }

  /** A bigger number never has an earlier colour. */
  lemma BallColorIndexMonotone(n: int, m: int)
    requires n <= m
    ensures BallColorIndex(n) <= BallColorIndex(m)
  {
  }
}
