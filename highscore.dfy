/**
 * The single-player high score: one number, kept in a file of one native 32-bit
 * little-endian integer.
 */
module HighScore {
  import opened Bytes
  import opened Options

  /** The file SaveHighScore writes for `value`. */
  function SaveHighScore(value: int): (b: seq<byte>)
    ensures |b| == 4
  {
    EncodeInt32(value)
  }

  /**
   * The first four bytes of a file, the ones a short file lacks left at zero: LoadHighScore
   * starts from 0 and its read stores only the bytes the file has.
   */
  function FirstFour(b: seq<byte>): (w: seq<byte>)
    ensures |w| == 4
    ensures forall k :: 0 <= k < 4 ==> w[k] == if k < |b| then b[k] else 0
  {
    (b + [0, 0, 0, 0])[..4]
  }

  /** LoadHighScore: 0 when the file does not open, otherwise the integer its first bytes hold. */
  function LoadHighScore(file: Option<seq<byte>>): (r: int)
    ensures IsInt32(r)
    ensures file.None? ==> r == 0
  {
    match file
    case None => 0
    case Some(b) => DecodeInt32(FirstFour(b))
  }

  /** Loading gives back the value saved, whatever follows it in the file. */
  lemma LoadSavedHighScore(value: int, trailer: seq<byte>)
    requires IsInt32(value)
    ensures LoadHighScore(Some(SaveHighScore(value) + trailer)) == value
  {
    assert FirstFour(SaveHighScore(value) + trailer) == SaveHighScore(value);
    DecodeEncodeInt32(value);
  }

  /** A file shorter than four bytes reads as the small non-negative number its bytes spell. */
  lemma ShortFileReadsLow(b: seq<byte>)
    requires |b| < 4
    ensures 0 <= LoadHighScore(Some(b)) < Pow256(|b|)
    ensures b == [] ==> LoadHighScore(Some(b)) == 0
  {
    var zeros := seq(4 - |b|, _ => 0 as byte);
    assert FirstFour(b) == b + zeros;
    FromLittleEndianZeros(b, zeros);
    Pow256BelowFour(|b|);
  }

  lemma Pow256BelowFour(k: nat)
    requires k < 4
    ensures Pow256(k) <= 0x100_0000
  {
    assert Pow256(0) == 1;
    assert Pow256(1) == 0x100;
    assert Pow256(2) == 0x1_0000;
    assert Pow256(3) == 0x100_0000;
  }
}
