/** Level progression: the character roster and the number of coins per level. */
module Levels {

  /** A playable character; the image handle of the roster's records is not modelled. */
  datatype Character = Character(name: string, speed: real)

  /** The fixed roster, in cycling order. */
  const ROSTER: seq<Character> :=
    [Character("Horse", 5.0), Character("Turtle", 4.0), Character("Cat", 6.0)]

  const FIRST_LEVEL_COINS: int := 10
  const COINS_PER_LEVEL: int := 5

  /** Every character moves to the right by a positive amount per frame. */
  predicate PositiveSpeeds(roster: seq<Character>)
  {
    forall k :: 0 <= k < |roster| ==> roster[k].speed > 0.0
  }

  /** Coins to collect on a level: ten on the first, five more on each later one. */
  function CoinsForLevel(level: int): (n: int)
    ensures level >= 1 ==> n >= FIRST_LEVEL_COINS && (n - FIRST_LEVEL_COINS) % COINS_PER_LEVEL == 0
    ensures level >= 1 ==> (n - FIRST_LEVEL_COINS) / COINS_PER_LEVEL == level - 1
  {
    FIRST_LEVEL_COINS + (level - 1) * COINS_PER_LEVEL
  }

  /** Position in the roster of the character for a level: levels cycle through the roster. */
  function CharacterIndex(level: int): (k: nat)
    ensures k < |ROSTER|
    ensures level >= 1 && level <= |ROSTER| ==> k == level - 1
  {
    (level - 1) % |ROSTER|
  }

  function CharacterFor(level: int): (c: Character)
    ensures c in ROSTER && c.speed > 0.0
  {
    assert PositiveSpeeds(ROSTER);
    ROSTER[CharacterIndex(level)]
  }

  /** Advancing one level adds five coins and moves one place along the roster, wrapping around. */
  lemma NextLevel(level: int)
    ensures CoinsForLevel(level + 1) == CoinsForLevel(level) + COINS_PER_LEVEL
    ensures CharacterIndex(level + 1) == (CharacterIndex(level) + 1) % |ROSTER|
  {
  }

  /** The character sequence repeats every three levels. */
  lemma {:induction false} CharacterCycle(level: int, rounds: nat)
    ensures CharacterFor(level + rounds * |ROSTER|) == CharacterFor(level)
  {
    if rounds > 0 {
      CharacterCycle(level, rounds - 1);
      assert level + rounds * |ROSTER| == (level + (rounds - 1) * |ROSTER|) + |ROSTER|;
    }
  }
}
