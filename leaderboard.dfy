/**
 * The two-player leaderboard: a ranked list of at most ten entries that every finished
 * match adds two entries to, and the binary file it is kept in.
 */
module Leaderboard {
  import opened Bytes
  import opened Options

  /** The longest list UpdateLeaderboard keeps. */
  const MaxEntries := 10

  /** LeaderboardEntry: a player's name, as the bytes typed, and the score reached. */
  datatype Entry = Entry(playerName: seq<byte>, score: int)

  /** LeaderboardEntry::operator>: an entry outranks another when its score is higher. */
  predicate Outranks(a: Entry, b: Entry)
  {
    a.score > b.score
  }

  /** Outranking is a strict order: irreflexive, asymmetric and transitive, as std::greater needs. */
  lemma OutranksIsStrictOrder(a: Entry, b: Entry, c: Entry)
    ensures !Outranks(a, a)
    ensures Outranks(a, b) ==> !Outranks(b, a)
    ensures Outranks(a, b) && Outranks(b, c) ==> Outranks(a, c)
  {
  }

  /** The order std::sort with std::greater produces: no entry outranks one before it. */
  predicate Ranked(s: seq<Entry>)
  {
    forall i, j :: 0 <= i < j < |s| ==> !Outranks(s[j], s[i])
  }

  /**
   * Inserts `e` into a list after every leading entry it does not outrank, so that
   * entries with equal scores keep the order they arrived in.
   */
  function Insert(e: Entry, s: seq<Entry>): (r: seq<Entry>)
    ensures multiset(r) == multiset(s) + multiset{e}
  {
    if s == [] then [e]
    else if Outranks(e, s[0]) then [e] + s
    else
      assert s == [s[0]] + s[1..];
      [s[0]] + Insert(e, s[1..])
  }

  /** Inserting into a ranked list keeps it ranked. */
  lemma {:induction false} InsertKeepsRanked(e: Entry, s: seq<Entry>)
    requires Ranked(s)
    ensures Ranked(Insert(e, s))
  {
    var r := Insert(e, s);
    if s != [] && !Outranks(e, s[0]) {
      var tail := Insert(e, s[1..]);
      InsertKeepsRanked(e, s[1..]);
      assert r == [s[0]] + tail;
      forall i, j | 0 <= i < j < |r| ensures !Outranks(r[j], r[i]) {
        if i == 0 {
          assert r[j] in multiset(tail);
          assert r[j] == e || r[j] in s[1..];
        } else {
          assert r[i] == tail[i - 1] && r[j] == tail[j - 1];
        }
      }
    }
  }

  /** Sorts by descending score; the order among equal scores is the order of `s`. */
  function SortByScore(s: seq<Entry>): (r: seq<Entry>)
    ensures Ranked(r) && multiset(r) == multiset(s)
  {
    if s == [] then []
    else
      var init := s[..|s| - 1];
      assert s == init + [s[|s| - 1]];
      InsertKeepsRanked(s[|s| - 1], SortByScore(init));
      Insert(s[|s| - 1], SortByScore(init))
  }

  /** The list after UpdateLeaderboard: both new entries added, sorted, cut to the first ten. */
  function UpdatedBoard(board: seq<Entry>, p1: Entry, p2: Entry): (r: seq<Entry>)
    ensures |r| <= MaxEntries && Ranked(r)
  {
    var sorted := SortByScore(board + [p1, p2]);
    if |sorted| > MaxEntries then sorted[..MaxEntries] else sorted
  }

  /** The update keeps min(|board| + 2, 10) entries, in ranked order. */
  lemma UpdatedBoardShape(board: seq<Entry>, p1: Entry, p2: Entry)
    ensures |UpdatedBoard(board, p1, p2)| == if |board| + 2 > MaxEntries then MaxEntries else |board| + 2
    ensures Ranked(UpdatedBoard(board, p1, p2))
  {
    var all := board + [p1, p2];
    var sorted := SortByScore(all);
    assert |sorted| == |multiset(sorted)| == |multiset(all)| == |all|;
  }

  /**
   * The update keeps the best entries: what it keeps comes from the old list and the two
   * new entries, and no entry it drops outranks an entry it keeps.
   */
  lemma UpdatedBoardKeepsBest(board: seq<Entry>, p1: Entry, p2: Entry)
    ensures multiset(UpdatedBoard(board, p1, p2)) <= multiset(board + [p1, p2])
    ensures forall d, k :: (d in multiset(board + [p1, p2]) - multiset(UpdatedBoard(board, p1, p2))
                            && k in UpdatedBoard(board, p1, p2)) ==> !Outranks(d, k)
  {
    var all := board + [p1, p2];
    var sorted := SortByScore(all);
    var kept := UpdatedBoard(board, p1, p2);
    var n := |kept|;
    assert |sorted| == |multiset(sorted)| == |multiset(all)| == |all|;
    assert kept == sorted[..n];
    assert sorted == kept + sorted[n..];
    assert multiset(all) == multiset(kept) + multiset(sorted[n..]);
    RankedCut(sorted, n);
    forall d, k | d in multiset(all) - multiset(kept) && k in kept ensures !Outranks(d, k) {
      assert d in multiset(sorted[n..]);
    }
  }

  /** In a ranked list, nothing after a cut outranks anything before it. */
  lemma RankedCut(s: seq<Entry>, n: nat)
    requires Ranked(s) && n <= |s|
    ensures forall d, k :: d in s[n..] && k in s[..n] ==> !Outranks(d, k)
  {
    forall d, k | d in s[n..] && k in s[..n] ensures !Outranks(d, k) {
      var j :| 0 <= j < |s[n..]| && s[n..][j] == d;
      var i :| 0 <= i < n && s[..n][i] == k;
      assert s[i] == k && s[n + j] == d;
    }
  }

  /**
   * A worked case: nine entries all below 5, then a match of "Amy" with 5 against "Bo"
   * with 3. The list is full afterwards and Amy's entry leads it.
   */
  lemma AmyLeadsFullBoard(board: seq<Entry>, amy: seq<byte>, bo: seq<byte>)
    requires |board| == 9 && forall e :: e in board ==> e.score < 5
    ensures |UpdatedBoard(board, Entry(amy, 5), Entry(bo, 3))| == MaxEntries
    ensures UpdatedBoard(board, Entry(amy, 5), Entry(bo, 3))[0] == Entry(amy, 5)
  {
    var a, b := Entry(amy, 5), Entry(bo, 3);
    var all := board + [a, b];
    var sorted := SortByScore(all);
    UpdatedBoardShape(board, a, b);
    assert a in multiset(all);
    assert a in sorted;
    var i :| 0 <= i < |sorted| && sorted[i] == a;
    assert sorted[0] in multiset(all);
    assert sorted[0] in all;
    if i > 0 {
      assert !Outranks(a, sorted[0]);
      assert sorted[0].score >= 5;
    }
  }

  // ---------------------------------------------------------------------------------
  // The leaderboard file: a 4-byte count, then per entry a 4-byte name length, the
  // name bytes without a terminator and a 4-byte score.

  /** The name a raw byte buffer holds once it is read back as a C string: up to the first NUL. */
  function CString(b: seq<byte>): (r: seq<byte>)
    ensures |r| <= |b| && r == b[..|r|] && 0 !in r
    ensures |r| < |b| ==> b[|r|] == 0
  {
    if b == [] || b[0] == 0 then [] else [b[0]] + CString(b[1..])
  }

  lemma {:induction false} CStringWithoutNul(b: seq<byte>)
    requires 0 !in b
    ensures CString(b) == b
  {
    if b != [] {
      CStringWithoutNul(b[1..]);
      assert b == [b[0]] + b[1..];
    }
  }

  function EncodeEntry(e: Entry): (b: seq<byte>)
    ensures |b| == 8 + |e.playerName|
  {
    EncodeInt32(|e.playerName|) + e.playerName + EncodeInt32(e.score)
  }

  function EncodeEntries(s: seq<Entry>): (b: seq<byte>)
    ensures |b| >= 8 * |s|
    ensures s != [] ==> b[..4] == EncodeInt32(|s[0].playerName|)
  {
    if s == [] then [] else EncodeEntry(s[0]) + EncodeEntries(s[1..])
  }

  /** The file SaveLeaderboard writes for the list `s`. */
  function EncodeLeaderboard(s: seq<Entry>): (b: seq<byte>)
    ensures |b| >= 4 + 8 * |s| && b[..4] == EncodeInt32(|s|)
  {
    EncodeInt32(|s|) + EncodeEntries(s)
  }

  /**
   * The first record of `b`, as one turn of LoadLeaderboard's loop reads it: the entry
   * and the bytes after it. A record cut short, or a negative name length, is not a
   * well-formed file: None.
   */
  function DecodeEntry(b: seq<byte>): (r: Option<(Entry, seq<byte>)>)
    ensures r.Some? ==> |r.value.1| < |b|
  {
    if |b| < 4 then None
    else
      var len := DecodeInt32(b[..4]);
      if len < 0 || |b| < 8 + len then None
      else Some((Entry(CString(b[4..4 + len]), DecodeInt32(b[4 + len..8 + len])), b[8 + len..]))
  }

  /** Reads `n` entries from the front of `b`, or None when one of them is not well formed. */
  function DecodeEntries(b: seq<byte>, n: nat): (r: Option<seq<Entry>>)
    ensures r.Some? ==> |r.value| == n
    decreases n
  {
    if n == 0 then Some([])
    else
      match DecodeEntry(b)
      case None => None
      case Some((e, rest)) => Prefixed([e], DecodeEntries(rest, n - 1))
  }

  /** The list LoadLeaderboard reads from the file contents `b`; a count of zero or less reads no entry. */
  function DecodeLeaderboard(b: seq<byte>): (r: Option<seq<Entry>>)
    ensures |b| < 4 ==> r.None?
    ensures r.Some? ==> |b| >= 4 && |r.value| == if DecodeInt32(b[..4]) <= 0 then 0 else DecodeInt32(b[..4])
  {
    if |b| < 4 then None
    else
      var size := DecodeInt32(b[..4]);
      if size <= 0 then Some([]) else DecodeEntries(b[4..], size)
  }

  /** Lists the file layout can hold and give back unchanged. */
  predicate Storable(s: seq<Entry>)
  {
    IsInt32(|s|) &&
    forall e :: e in s ==> IsInt32(|e.playerName|) && IsInt32(e.score) && 0 !in e.playerName
  }

  /** One record of the file followed by `rest`: it decodes to its entry, the name read as a C string. */
  lemma DecodeEncodedEntry(e: Entry, rest: seq<byte>, n: nat)
    requires IsInt32(|e.playerName|) && IsInt32(e.score)
    ensures DecodeEntries(EncodeEntry(e) + rest, n + 1)
            == Prefixed([Entry(CString(e.playerName), e.score)], DecodeEntries(rest, n))
  {
    var len := |e.playerName|;
    RecordSlices(EncodeInt32(len), e.playerName, EncodeInt32(e.score), rest);
    DecodeEncodeInt32(len);
    DecodeEncodeInt32(e.score);
  }

  /** The four fields of a record laid end to end, and where each one sits. */
  lemma RecordSlices(count: seq<byte>, name: seq<byte>, score: seq<byte>, rest: seq<byte>)
    requires |count| == 4 && |score| == 4
    ensures (var b := count + name + score + rest;
             && b[..4] == count && b[4..4 + |name|] == name
             && b[4 + |name|..8 + |name|] == score && b[8 + |name|..] == rest)
  {
    var b := count + name + score + rest;
    assert b == count + (name + (score + rest));
    assert (name + (score + rest))[..|name|] == name;
    assert (score + rest)[..4] == score;
  }

  lemma {:induction false} DecodeEncodeEntries(s: seq<Entry>, trailer: seq<byte>)
    requires Storable(s)
    ensures DecodeEntries(EncodeEntries(s) + trailer, |s|) == Some(s)
  {
    if s != [] {
      var e, tail := s[0], s[1..];
      assert s == [e] + tail;
      assert Storable(tail) by {
        assert forall x :: x in tail ==> x in s;
      }
      DecodeEncodeEntries(tail, trailer);
      DecodeConsEntry(e, tail, trailer);
    }
  }

  /** A record written in front of records that read back reads back in front of them. */
  lemma DecodeConsEntry(e: Entry, tail: seq<Entry>, trailer: seq<byte>)
    requires IsInt32(|e.playerName|) && IsInt32(e.score) && 0 !in e.playerName
    requires DecodeEntries(EncodeEntries(tail) + trailer, |tail|) == Some(tail)
    ensures DecodeEntries(EncodeEntries([e] + tail) + trailer, |tail| + 1) == Some([e] + tail)
  {
    var rest := EncodeEntries(tail) + trailer;
    assert ([e] + tail)[1..] == tail;
    assert EncodeEntries([e] + tail) + trailer == EncodeEntry(e) + rest;
    DecodeEncodedEntry(e, rest, |tail|);
    CStringWithoutNul(e.playerName);
  }

  /**
   * LoadLeaderboard reads back what SaveLeaderboard wrote, whatever follows the last
   * record. Not so for a name holding a NUL byte: it is cut at the NUL.
   */
  lemma DecodeEncodeLeaderboard(s: seq<Entry>, trailer: seq<byte>)
    requires Storable(s)
    ensures DecodeLeaderboard(EncodeLeaderboard(s) + trailer) == Some(s)
  {
    var b := EncodeLeaderboard(s) + trailer;
    assert b[..4] == EncodeInt32(|s|);
    DecodeEncodeInt32(|s|);
    assert b[4..] == EncodeEntries(s) + trailer;
    DecodeEncodeEntries(s, trailer);
  }

  /** A name with a NUL byte comes back cut at the NUL. */
  lemma NulCutsName(name: seq<byte>, score: int, k: nat)
    requires k < |name| && name[k] == 0 && 0 !in name[..k]
    requires IsInt32(|name|) && IsInt32(score)
    ensures DecodeLeaderboard(EncodeLeaderboard([Entry(name, score)])) == Some([Entry(name[..k], score)])
  {
    var e := Entry(name, score);
    var s := [e];
    assert s[1..] == [];
    assert EncodeEntries(s) == EncodeEntry(e) + [];
    var b := EncodeLeaderboard(s);
    assert b == EncodeInt32(1) + (EncodeEntry(e) + []);
    assert b[..4] == EncodeInt32(1);
    DecodeEncodeInt32(1);
    assert DecodeInt32(b[..4]) == 1;
    assert b[4..] == EncodeEntry(e) + [];
    DecodeEncodedEntry(e, [], 0);
    CStringPrefix(name, k);
    assert DecodeEntries([], 0) == Some([]);
    assert [Entry(name[..k], score)] + [] == [Entry(name[..k], score)];
    assert DecodeEntries(b[4..], 1) == Some([Entry(name[..k], score)]);
  }

  lemma {:induction false} CStringPrefix(b: seq<byte>, k: nat)
    requires k < |b| && b[k] == 0 && 0 !in b[..k]
    ensures CString(b) == b[..k]
  {
    if k > 0 {
      assert b[0] in b[..k];
      CStringPrefix(b[1..], k - 1);
      assert b[1..][..k - 1] == b[1..k];
      assert b[..k] == [b[0]] + b[1..k];
      assert 0 !in b[1..][..k - 1] by { assert forall x :: x in b[1..k] ==> x in b[..k]; }
    }
  }

  /**
   * LoadLeaderboard's loop: reads the count, then one record per turn from what is
   * left of the file: the name length, the name bytes and the score.
   */
  method ReadLeaderboard(b: seq<byte>) returns (r: Option<seq<Entry>>)
    ensures r == DecodeLeaderboard(b)
  {
    if |b| < 4 {
      return None;
    }
    var size := DecodeInt32(b[..4]);
    if size <= 0 {
      return Some([]);
    }
    var entries: seq<Entry> := [];
    var unread := b[4..];
    var i := 0;
    PrefixedNothing(DecodeEntries(unread, size));
    while i < size
      invariant 0 <= i <= size
      invariant DecodeEntries(b[4..], size) == Prefixed(entries, DecodeEntries(unread, size - i))
    {
      var read := ReadEntry(unread, size - i);
      if read.None? {
        return None;
      }
      PrefixedAppend(entries, read.value.0, DecodeEntries(read.value.1, size - i - 1));
      entries, unread, i := entries + [read.value.0], read.value.1, i + 1;
    }
    assert entries + [] == entries;
    return Some(entries);
  }

  /**
   * One entry of the file: the name length, the name, the score. The entry and the bytes
   * after it, or None when the bytes run out first.
   */
  method ReadEntry(unread: seq<byte>, ghost n: nat) returns (read: Option<(Entry, seq<byte>)>)
    requires n > 0
    ensures read.None? ==> DecodeEntries(unread, n) == None
    ensures read.Some? ==> DecodeEntries(unread, n) == Prefixed([read.value.0], DecodeEntries(read.value.1, n - 1))
  {
    if |unread| < 4 {
      return None;
    }
    var nameLength := DecodeInt32(unread[..4]);
    if nameLength < 0 || |unread| < 8 + nameLength {
      return None;
    }
    var name := CString(unread[4..4 + nameLength]);
    var score := DecodeInt32(unread[4 + nameLength..8 + nameLength]);
    return Some((Entry(name, score), unread[8 + nameLength..]));
  }

  lemma PrefixedNothing(rest: Option<seq<Entry>>)
    ensures Prefixed([], rest) == rest
  {
    match rest {
      case None =>
      case Some(t) => assert [] + t == t;
    }
  }

  lemma PrefixedAppend(entries: seq<Entry>, e: Entry, rest: Option<seq<Entry>>)
    ensures Prefixed(entries, Prefixed([e], rest)) == Prefixed(entries + [e], rest)
  {
    match rest {
      case None =>
      case Some(t) => assert entries + ([e] + t) == (entries + [e]) + t;
    }
  }

  /** `entries` followed by the decoded rest, or None if the rest does not decode. */
  function Prefixed(entries: seq<Entry>, rest: Option<seq<Entry>>): Option<seq<Entry>>
  {
    match rest
    case None => None
    case Some(t) => Some(entries + t)
  }

  /** The list in memory after LoadLeaderboard: unchanged when the file does not open. */
  function LoadedBoard(current: seq<Entry>, file: Option<seq<byte>>): (r: seq<Entry>)
    ensures file.None? ==> r == current
    ensures file.Some? && DecodeLeaderboard(file.value).None? ==> r == []
  {
    match file
    case None => current
    case Some(b) => DecodeLeaderboard(b).GetOr([])
  }

  /** Loading a saved file gives back the list saved, whatever was in memory and whatever follows it. */
  lemma LoadSavedBoard(current: seq<Entry>, s: seq<Entry>, trailer: seq<byte>)
    requires Storable(s)
    ensures LoadedBoard(current, Some(EncodeLeaderboard(s) + trailer)) == s
  {
    DecodeEncodeLeaderboard(s, trailer);
  }

  /**
   * The global `leaderboard` vector together with the file behind it. The file is a
   * field: None when it does not exist, Some(contents) otherwise.
   */
  class Ledger {
    var entries: seq<Entry>
    var file: Option<seq<byte>>

    /** Starts with an empty list and runs LoadLeaderboard on `file`. */
    constructor (file: Option<seq<byte>>)
      ensures this.file == file && entries == LoadedBoard([], file)
    {
      this.file := file;
      entries := [];
      new;
      Load();
    }

    /** LoadLeaderboard. */
    method Load()
      modifies this`entries
      ensures entries == LoadedBoard(old(entries), file)
    {
      match file
      case None =>
      case Some(b) =>
        var r := ReadLeaderboard(b);
        entries := r.GetOr([]);
    }

    /** SaveLeaderboard. */
    method Save()
      modifies this`file
      ensures file == Some(EncodeLeaderboard(entries))
    {
      file := Some(EncodeLeaderboard(entries));
    }

    /** UpdateLeaderboard: adds both players' entries, ranks, keeps ten and saves. */
    method Update(player1Name: seq<byte>, player1Score: int, player2Name: seq<byte>, player2Score: int)
      modifies this
      ensures entries == UpdatedBoard(old(entries), Entry(player1Name, player1Score), Entry(player2Name, player2Score))
      ensures |entries| <= MaxEntries && Ranked(entries)
      ensures file == Some(EncodeLeaderboard(entries))
    {
      var p1, p2 := Entry(player1Name, player1Score), Entry(player2Name, player2Score);
      UpdatedBoardShape(entries, p1, p2);
      entries := UpdatedBoard(entries, p1, p2);
      Save();
    }
  }
}
