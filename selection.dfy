/**
 * The three rejection-sampling helpers of the engine: the question picker that
 * never repeats an index still held in its bounded history, and the two reveal
 * abilities that pick wrong answer slots.
 */
module Selection {
  import opened Random

  /** The number of answer slots of every question. */
  const AnswerSlots := 4

  /**
   * The history after the eviction step: a suffix of the history that drops exactly one
   * entry, the oldest, when the history is full, and none otherwise.
   */
  function Evicted(history: seq<int>, historySize: nat): (h: seq<int>)
    requires |history| >= historySize ==> |history| > 0
    ensures |history| - 1 <= |h| <= |history| && h == history[|history| - |h|..]
    ensures |h| < |history| <==> |history| >= historySize
  {
    if |history| >= historySize then history[1..] else history
  }

  predicate Distinct(s: seq<int>)
  {
    forall i, j :: 0 <= i < j < |s| ==> s[i] != s[j]
  }

  /**
   * GetUniqueRandomValue: draws from [min, max] until a value outside `history` comes
   * up, then evicts the oldest entry if the history holds `historySize` or more and
   * appends the value. The erase of the oldest entry is only defined on a non-empty
   * history, hence the precondition. On an exhausted stream the history is untouched.
   */
  method UniqueRandomValue(min: int, max: int, history: seq<int>, historySize: nat, rng: seq<nat>)
    returns (d: Draw<int>, newHistory: seq<int>)
    requires |history| >= historySize ==> |history| > 0
    ensures d.Drawn? ==> 0 < d.consumed <= |rng|
    ensures d.Drawn? ==> d.value == RandomValue(min, max, rng[d.consumed - 1])
    ensures d.Drawn? ==> Low(min, max) <= d.value <= High(min, max) && d.value !in history
    ensures d.Drawn? ==> forall j :: 0 <= j < d.consumed - 1 ==> RandomValue(min, max, rng[j]) in history
    ensures d.Drawn? ==> newHistory == Evicted(history, historySize) + [d.value]
    ensures d.Exhausted? ==> newHistory == history
    ensures d.Exhausted? ==> forall j :: 0 <= j < |rng| ==> RandomValue(min, max, rng[j]) in history
  {
    var i := 0;
    while i < |rng|
      invariant 0 <= i <= |rng|
      invariant forall j :: 0 <= j < i ==> RandomValue(min, max, rng[j]) in history
    {
      var newRandom := RandomValue(min, max, rng[i]);
      var isUnique := true;
      var k := 0;
      while k < |history|
        invariant 0 <= k <= |history|
        invariant isUnique <==> newRandom !in history[..k]
      {
        if history[k] == newRandom {
          isUnique := false;
          break;
        }
        k := k + 1;
      }
      assert isUnique <==> newRandom !in history by {
        if k == |history| { assert history[..k] == history; }
      }
      i := i + 1;
      if isUnique {
        newHistory := history;
        if |newHistory| >= historySize {
          newHistory := newHistory[1..];
        }
        newHistory := newHistory + [newRandom];
        return Drawn(newRandom, i), newHistory;
      }
    }
    return Exhausted, history;
  }

  /** A full draw keeps the history within its bound, provided it started within it. */
  lemma DrawKeepsBound(history: seq<int>, historySize: nat, v: int)
    requires 0 < historySize && |history| <= historySize
    ensures |Evicted(history, historySize) + [v]| <= historySize
    ensures |Evicted(history, historySize) + [v]| == if |history| == historySize then |history| else |history| + 1
  {
  }

  /**
   * A draw keeps the history free of repeats: the drawn value is new, and eviction only
   * drops an entry. Starting from an empty history, the history therefore always holds
   * the last draws, all different from each other.
   */
  lemma DrawKeepsDistinct(history: seq<int>, historySize: nat, v: int)
    requires |history| >= historySize ==> |history| > 0
    requires Distinct(history) && v !in history
    ensures Distinct(Evicted(history, historySize) + [v])
  {
    var h := Evicted(history, historySize);
    assert forall x :: x in h ==> x in history;
    var r := h + [v];
    forall i, j | 0 <= i < j < |r| ensures r[i] != r[j] {
      if j == |r| - 1 {
        assert r[i] in h;
      } else {
        assert r[i] == h[i] && r[j] == h[j];
      }
    }
  }

  /** The fresh value of a draw that succeeded is not among the `historySize - 1` draws kept before it. */
  lemma DrawnDiffersFromKept(history: seq<int>, historySize: nat, v: int, k: nat)
    requires |history| >= historySize ==> |history| > 0
    requires v !in history
    requires k < |Evicted(history, historySize)|
    ensures (Evicted(history, historySize) + [v])[k] != v
  {
    var h := Evicted(history, historySize);
    assert h[k] in history by {
      if |history| >= historySize { assert h[k] == history[k + 1]; }
    }
  }

  /** The set of values of the closed range, which the history has to leave room in. */
  function RangeSet(lo: int, hi: int): (s: set<int>)
    ensures forall x :: x in s <==> lo <= x <= hi
    decreases hi - lo
  {
    if hi < lo then {} else RangeSet(lo, hi - 1) + {hi}
  }

  lemma {:induction false} RangeSetSize(lo: int, hi: int)
    requires lo <= hi + 1
    ensures |RangeSet(lo, hi)| == hi - lo + 1
    decreases hi - lo
  {
    if hi >= lo {
      RangeSetSize(lo, hi - 1);
      assert hi !in RangeSet(lo, hi - 1);
    }
  }

  lemma {:induction false} SeqSetSize(s: seq<int>)
    ensures |set x | x in s| <= |s|
  {
    if s != [] {
      SeqSetSize(s[1..]);
      assert (set x | x in s) == (set x | x in s[1..]) + {s[0]};
    }
  }

  /**
   * Liveness of the question picker: when the history is shorter than the range, some
   * value of the range is fresh, and the raw word that produces it ends the loop.
   */
  lemma FreshValueExists(min: int, max: int, history: seq<int>)
    requires |history| < High(min, max) - Low(min, max) + 1
    ensures exists v :: Low(min, max) <= v <= High(min, max) && v !in history
                        && RandomValue(min, max, v - Low(min, max)) == v
  {
    var lo, hi := Low(min, max), High(min, max);
    var range := RangeSet(lo, hi);
    var hs := set x | x in history;
    RangeSetSize(lo, hi);
    SeqSetSize(history);
    assert !(range <= hs) by {
      if range <= hs {
        SubsetSize(range, hs);
      }
    }
    var v :| v in range && v !in hs;
    assert v !in history;
    RandomValueReaches(min, max, v);
  }

  lemma SubsetSize(a: set<int>, b: set<int>)
    requires a <= b
    ensures |a| <= |b|
  {
    assert b == a + (b - a);
  }

  /**
   * The latent hang of the question picker: once every value of the range is in the
   * history, no stream of raw words, however long, lets the loop return.
   */
  lemma NoFreshValueStarves(min: int, max: int, history: seq<int>, rng: seq<nat>)
    requires forall v :: Low(min, max) <= v <= High(min, max) ==> v in history
    ensures forall j :: 0 <= j < |rng| ==> RandomValue(min, max, rng[j]) in history
  {
  }

  /**
   * GetTwoWrongAnswersIndices: draws slots from [0, 3] and keeps each one that is neither
   * the correct slot nor already kept, until two are kept. On an exhausted stream, the
   * stream never showed two different wrong slots.
   */
  method TwoWrongAnswers(correctAnswerIndex: int, rng: seq<nat>) returns (d: Draw<seq<int>>)
    ensures d.Drawn? ==> 0 < d.consumed <= |rng| && |d.value| == 2 && d.value[0] != d.value[1]
    ensures d.Drawn? ==> forall k :: 0 <= k < 2 ==> 0 <= d.value[k] < AnswerSlots && d.value[k] != correctAnswerIndex
    ensures d.Drawn? ==> d.value[1] == RandomValue(0, 3, rng[d.consumed - 1])
    ensures d.Exhausted? ==>
              (forall i, j :: 0 <= i < |rng| && 0 <= j < |rng|
                 && RandomValue(0, 3, rng[i]) != correctAnswerIndex && RandomValue(0, 3, rng[j]) != correctAnswerIndex
                 ==> RandomValue(0, 3, rng[i]) == RandomValue(0, 3, rng[j]))
  {
    var wrongAnswers: seq<int> := [];
    var i := 0;
    while |wrongAnswers| < 2 && i < |rng|
      invariant 0 <= i <= |rng|
      invariant |wrongAnswers| <= 2 && Distinct(wrongAnswers)
      invariant forall k :: 0 <= k < |wrongAnswers| ==> 0 <= wrongAnswers[k] < AnswerSlots && wrongAnswers[k] != correctAnswerIndex
      invariant forall j :: 0 <= j < i && RandomValue(0, 3, rng[j]) != correctAnswerIndex ==> RandomValue(0, 3, rng[j]) in wrongAnswers
      invariant |wrongAnswers| == 2 ==> 0 < i && wrongAnswers[1] == RandomValue(0, 3, rng[i - 1])
    {
      var randomIndex := RandomValue(0, 3, rng[i]);
      i := i + 1;
      var isDuplicate := randomIndex in wrongAnswers;
      if randomIndex != correctAnswerIndex && !isDuplicate {
        wrongAnswers := wrongAnswers + [randomIndex];
      }
    }
    if |wrongAnswers| == 2 {
      d := Drawn(wrongAnswers, i);
    } else {
      d := Exhausted;
    }
  }

  /**
   * GetOneWrongAnswerIndex: draws slots from [0, 3] until one differs from the correct
   * slot. On an exhausted stream every word of it produced the correct slot.
   */
  method OneWrongAnswer(correctAnswerIndex: int, rng: seq<nat>) returns (d: Draw<int>)
    ensures d.Drawn? ==> 0 < d.consumed <= |rng| && d.value == RandomValue(0, 3, rng[d.consumed - 1])
    ensures d.Drawn? ==> 0 <= d.value < AnswerSlots && d.value != correctAnswerIndex
    ensures d.Drawn? ==> forall j :: 0 <= j < d.consumed - 1 ==> RandomValue(0, 3, rng[j]) == correctAnswerIndex
    ensures d.Exhausted? ==> forall j :: 0 <= j < |rng| ==> RandomValue(0, 3, rng[j]) == correctAnswerIndex
  {
    var i := 0;
    while i < |rng|
      invariant 0 <= i <= |rng|
      invariant forall j :: 0 <= j < i ==> RandomValue(0, 3, rng[j]) == correctAnswerIndex
    {
      var randomIndex := RandomValue(0, 3, rng[i]);
      i := i + 1;
      if randomIndex != correctAnswerIndex {
        return Drawn(randomIndex, i);
      }
    }
    return Exhausted;
  }
}
