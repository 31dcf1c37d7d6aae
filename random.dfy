/**
 * The random source of the game. raylib's `GetRandomValue(min, max)` reduces one raw
 * word of the C library generator into the closed range spanned by its two bounds,
 * swapping them first when `min > max`. The generator itself is an oracle here: a
 * finite stream of raw words that the rejection loops consume one at a time.
 */
module Random {

  /** The smaller and the larger of the two bounds handed to GetRandomValue. */
  function Low(min: int, max: int): int { if min <= max then min else max }
  function High(min: int, max: int): int { if min <= max then max else min }

  /** GetRandomValue(min, max) when the generator yields the raw word `raw`. */
  function RandomValue(min: int, max: int, raw: nat): (v: int)
    ensures Low(min, max) <= v <= High(min, max)
  {
    Low(min, max) + raw % (High(min, max) - Low(min, max) + 1)
  }

  /** Every value of the range is produced by some raw word, so the oracle loses nothing. */
  lemma RandomValueReaches(min: int, max: int, v: int)
    requires Low(min, max) <= v <= High(min, max)
    ensures RandomValue(min, max, v - Low(min, max)) == v
  {
  }

  /**
   * The outcome of a rejection loop run against a finite stream of raw words:
   * either it accepted a value after reading `consumed` words, or it read the
   * whole stream without accepting, which stands for a loop that never returns.
   */
  datatype Draw<T> = Drawn(value: T, consumed: nat) | Exhausted

  /** `rest` is what is left of the stream `rng` once some words were read from its front. */
  predicate ReadOn(rng: seq<nat>, rest: seq<nat>)
  {
    |rest| <= |rng| && rest == rng[|rng| - |rest|..]
  }

  /** Reading on from where an earlier read stopped is reading on from the start. */
  lemma ReadOnTransitive(a: seq<nat>, b: seq<nat>, c: seq<nat>)
    requires ReadOn(a, b) && ReadOn(b, c)
    ensures ReadOn(a, c)
  {
    assert c == a[|a| - |b|..][|b| - |c|..];
  }
}
