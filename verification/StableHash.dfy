/**
 The stable hasher: one 64-bit state, words mixed into it, and MurmurHash3's
 finaliser.
 */
module StableHash {
  import opened Numbers
  import opened Bytes
  import opened Words64

  const SEED: u64 := 0x243F_6A88_85A3_08D3
  const MULTIPLIER: u64 := 0x9E37_79B9_7F4A_7C15
  const INCREMENT: u64 := 0x632B_E59B_D9B4_E019
  const FIRST: u64 := 0xFF51_AFD7_ED55_8CCD
  const SECOND: u64 := 0xC4CE_B9FE_1A85_EC53

  // ---------------------------------------------------------------------------
  // Mixing and finishing, and their inverses
  // ---------------------------------------------------------------------------

  function Mixed(state: u64, word: u64): u64 {
    WrappingAdd(RotateLeft29(WrappingMul(XorWords(state, word), MULTIPLIER)), INCREMENT)
  }

  const UNMULTIPLIER: u64 := 0xF1DE_83E1_9937_733D

  function Unscrambled(mixed: u64): u64 {
    WrappingMul(RotateRight29(WrappingSub(mixed, INCREMENT)), UNMULTIPLIER)
  }

  lemma Multipliers()
    ensures exists c: int :: MULTIPLIER * UNMULTIPLIER == 1 + TWO64 * c
    ensures exists c: int :: UNMULTIPLIER * MULTIPLIER == 1 + TWO64 * c
  {
    var c := MULTIPLIER * UNMULTIPLIER / TWO64;
    assert MULTIPLIER * UNMULTIPLIER == 1 + TWO64 * c;
  }

  lemma UnscrambledUndoes(x: u64, mixed: u64)
    ensures Unscrambled(WrappingAdd(RotateLeft29(WrappingMul(x, MULTIPLIER)), INCREMENT)) == x
    ensures WrappingAdd(RotateLeft29(WrappingMul(Unscrambled(mixed), MULTIPLIER)), INCREMENT) == mixed
  {
    Multipliers();
    var c: int :| MULTIPLIER * UNMULTIPLIER == 1 + TWO64 * c;
    MulUndoes(x, MULTIPLIER, UNMULTIPLIER, c);
    RotateUndoes(WrappingMul(x, MULTIPLIER));
    AddUndoes(RotateLeft29(WrappingMul(x, MULTIPLIER)), INCREMENT);
    AddUndoes(mixed, INCREMENT);
    RotateUndoes(WrappingSub(mixed, INCREMENT));
    MulUndoes(RotateRight29(WrappingSub(mixed, INCREMENT)), UNMULTIPLIER, MULTIPLIER, c);
  }

  /** Mixing is a bijection of the state, and of the word: knowing the result and one of
      them gives the other, whatever it is. */
  lemma MixIsBijective(state: u64, word: u64, mixed: u64)
    ensures XorWords(Unscrambled(Mixed(state, word)), word) == state
    ensures XorWords(Unscrambled(Mixed(state, word)), state) == word
    ensures Mixed(XorWords(Unscrambled(mixed), word), word) == mixed
    ensures Mixed(state, XorWords(Unscrambled(mixed), state)) == mixed
  {
    UnscrambledUndoes(XorWords(state, word), mixed);
    XorUndoes(state, word);
    XorCommutes(state, word);
    XorUndoes(word, state);
    XorUndoes(Unscrambled(mixed), word);
    XorUndoes(Unscrambled(mixed), state);
    XorCommutes(state, XorWords(Unscrambled(mixed), state));
  }

  function Finished(state: u64): u64 {
    XorShift(WrappingMul(XorShift(WrappingMul(XorShift(state), FIRST)), SECOND))
  }

  const UNFIRST: u64 := 0x4F74_430C_22A5_4005
  const UNSECOND: u64 := 0x9CB4_B2F8_1293_37DB

  function Unfinished(hash: u64): u64 {
    XorShift(WrappingMul(XorShift(WrappingMul(XorShift(hash), UNSECOND)), UNFIRST))
  }

  lemma FinisherMultipliers()
    ensures exists c: int :: FIRST * UNFIRST == 1 + TWO64 * c
    ensures exists c: int :: SECOND * UNSECOND == 1 + TWO64 * c
  {
    var c, d := FIRST * UNFIRST / TWO64, SECOND * UNSECOND / TWO64;
    assert FIRST * UNFIRST == 1 + TWO64 * c && SECOND * UNSECOND == 1 + TWO64 * d;
  }

  /** The finaliser is a bijection too. */
  lemma FinishIsBijective(state: u64, hash: u64)
    ensures Unfinished(Finished(state)) == state && Finished(Unfinished(hash)) == hash
  {
    FinisherMultipliers();
    var c: int :| FIRST * UNFIRST == 1 + TWO64 * c;
    var d: int :| SECOND * UNSECOND == 1 + TWO64 * d;
    FinishUndone(state, c, d);
    UnfinishUndone(hash, c, d);
  }

  lemma FinishUndone(state: u64, c: int, d: int)
    requires FIRST * UNFIRST == 1 + TWO64 * c && SECOND * UNSECOND == 1 + TWO64 * d
    ensures Unfinished(Finished(state)) == state
  {
    var a := XorShift(state);
    var b := XorShift(WrappingMul(a, FIRST));
    XorShiftUndoes(WrappingMul(b, SECOND));
    MulUndoes(b, SECOND, UNSECOND, d);
    XorShiftUndoes(WrappingMul(a, FIRST));
    MulUndoes(a, FIRST, UNFIRST, c);
    XorShiftUndoes(state);
  }

  lemma UnfinishUndone(hash: u64, c: int, d: int)
    requires FIRST * UNFIRST == 1 + TWO64 * c && SECOND * UNSECOND == 1 + TWO64 * d
    ensures Finished(Unfinished(hash)) == hash
  {
    var a := XorShift(hash);
    var b := XorShift(WrappingMul(a, UNSECOND));
    XorShiftUndoes(WrappingMul(b, UNFIRST));
    assert UNFIRST * FIRST == FIRST * UNFIRST && UNSECOND * SECOND == SECOND * UNSECOND;
    MulUndoes(b, UNFIRST, FIRST, c);
    XorShiftUndoes(WrappingMul(a, UNSECOND));
    MulUndoes(a, UNSECOND, SECOND, d);
    XorShiftUndoes(hash);
  }

  // ---------------------------------------------------------------------------
  // Hashing a list of words
  // ---------------------------------------------------------------------------

  function MixedAll(state: u64, words: seq<u64>): u64 {
    if words == [] then state else Mixed(MixedAll(state, words[..|words| - 1]), words[|words| - 1])
  }

  function HashOf(words: seq<u64>): u64 {
    Finished(MixedAll(SEED, words))
  }

  lemma {:induction false} MixedInTwo(state: u64, a: seq<u64>, b: seq<u64>)
    ensures MixedAll(state, a + b) == MixedAll(MixedAll(state, a), b)
    decreases |b|
  {
    if b == [] {
      assert a + b == a;
    } else {
      MixedInTwo(state, a, b[..|b| - 1]);
      assert (a + b)[..|a + b| - 1] == a + b[..|b| - 1];
    }
  }

  /** The state before the words, from the state after them. */
  function UnmixedAll(state: u64, words: seq<u64>): u64
    decreases |words|
  {
    if words == [] then state
    else UnmixedAll(XorWords(Unscrambled(state), words[|words| - 1]), words[..|words| - 1])
  }

  lemma {:induction false} MixedAllIsBijective(state: u64, words: seq<u64>)
    ensures UnmixedAll(MixedAll(state, words), words) == state && MixedAll(UnmixedAll(state, words), words) == state
    decreases |words|
  {
    if words != [] {
      var init, last := words[..|words| - 1], words[|words| - 1];
      MixIsBijective(MixedAll(state, init), last, state);
      MixedAllIsBijective(state, init);
      MixedAllIsBijective(XorWords(Unscrambled(state), last), init);
    }
  }

  /** The word at `i` that gives `hash`, the others being those of `words`. */
  function WordFor(words: seq<u64>, i: nat, hash: u64): u64
    requires i < |words|
  {
    XorWords(Unscrambled(UnmixedAll(Unfinished(hash), words[i + 1..])), MixedAll(SEED, words[..i]))
  }

  lemma HashAt(words: seq<u64>, i: nat, word: u64)
    requires i < |words|
    ensures HashOf(words[i := word]) == Finished(MixedAll(Mixed(MixedAll(SEED, words[..i]), word), words[i + 1..]))
  {
    var upTo := words[..i] + [word];
    assert words[i := word] == upTo + words[i + 1..];
    MixedInTwo(SEED, upTo, words[i + 1..]);
    assert upTo[..|upTo| - 1] == words[..i];
  }

  /** With every other word fixed, the hash is a bijection of any one word: each hash
      comes from exactly one value of it. */
  lemma HashIsBijective(words: seq<u64>, i: nat, word: u64, hash: u64)
    requires i < |words|
    ensures HashOf(words[i := WordFor(words, i, hash)]) == hash
    ensures HashOf(words[i := word]) == hash ==> word == WordFor(words, i, hash)
  {
    var before, rest := MixedAll(SEED, words[..i]), words[i + 1..];
    var found := WordFor(words, i, hash);
    HashAt(words, i, word);
    HashAt(words, i, found);
    MixedAllIsBijective(Unfinished(hash), rest);
    MixIsBijective(before, word, UnmixedAll(Unfinished(hash), rest));
    FinishIsBijective(MixedAll(Mixed(before, word), rest), hash);
    MixedAllIsBijective(Mixed(before, word), rest);
  }

  /** stable_hash of a u64, which is written as that one word. */
  function StableHashOf(key: u64): u64 {
    HashOf([key])
  }

  /** No two u64 keys share a hash, and every hash has its key. */
  lemma StableHashIsBijective(a: u64, b: u64, hash: u64)
    ensures StableHashOf(a) == StableHashOf(b) ==> a == b
    ensures exists key: u64 :: StableHashOf(key) == hash
  {
    HashIsBijective([a], 0, b, StableHashOf(a));
    HashIsBijective([a], 0, a, StableHashOf(a));
    HashIsBijective([a], 0, a, hash);
    assert [a][0 := a] == [a] && [a][0 := b] == [b];
    var key := WordFor([a], 0, hash);
    assert [a][0 := key] == [key];
    assert StableHashOf(key) == hash;
  }

  // ---------------------------------------------------------------------------
  // Writing bytes
  // ---------------------------------------------------------------------------

  function FromLittleEndian(bytes: seq<Byte>): (n: nat) {
    if bytes == [] then 0 else bytes[0] + 256 * FromLittleEndian(bytes[1..])
  }

  function ToLittleEndian(n: nat, width: nat): (bytes: seq<Byte>)
    ensures |bytes| == width
  {
    if width == 0 then [] else [n % 256] + ToLittleEndian(n / 256, width - 1)
  }

  lemma {:induction false} LittleEndianFits(bytes: seq<Byte>)
    ensures FromLittleEndian(bytes) < Pow256(|bytes|)
    decreases |bytes|
  {
    if bytes != [] { LittleEndianFits(bytes[1..]); }
  }

  /** Up to eight bytes, zero-padded, as a word. */
  function WordOf(bytes: seq<Byte>): u64
    requires |bytes| <= 8
  {
    LittleEndianFits(bytes);
    Pow256Of8();
    Pow256Grows(|bytes|, 8);
    FromLittleEndian(bytes)
  }

  /** A word's first bytes are those it was made of, and the others are zero. */
  lemma {:induction false} WordKeepsBytes(bytes: seq<Byte>, width: nat)
    requires |bytes| <= width
    ensures ToLittleEndian(FromLittleEndian(bytes), width)[..|bytes|] == bytes
    decreases |bytes|
  {
    if bytes != [] {
      WordKeepsBytes(bytes[1..], width - 1);
      assert FromLittleEndian(bytes) / 256 == FromLittleEndian(bytes[1..]);
    }
  }

  /** The whole words of a byte string, then its zero-padded tail if any. */
  function BodyWords(bytes: seq<Byte>): (words: seq<u64>)
    ensures |words| == (|bytes| + 7) / 8
  {
    if bytes == [] then []
    else if |bytes| < 8 then [WordOf(bytes)]
    else [WordOf(bytes[..8])] + BodyWords(bytes[8..])
  }

  /** What a write of `bytes` mixes in: its words, then its length. */
  function WordsOf(bytes: seq<Byte>): seq<u64>
    requires |bytes| < TWO64
  {
    BodyWords(bytes) + [|bytes|]
  }

  // ---------------------------------------------------------------------------
  // The words of several writes can be told apart
  // ---------------------------------------------------------------------------

  /** What writing each of `writes` mixes in. */
  function AllWords(writes: seq<seq<Byte>>): seq<u64>
    requires forall i :: 0 <= i < |writes| ==> |writes[i]| < TWO64
  {
    if writes == [] then [] else AllWords(writes[..|writes| - 1]) + WordsOf(writes[|writes| - 1])
  }

  /** The first `n` bytes of `words`. */
  function Unpacked(words: seq<u64>, n: nat): seq<Byte> {
    if words == [] then []
    else if n < 8 then ToLittleEndian(words[0], 8)[..n]
    else ToLittleEndian(words[0], 8) + Unpacked(words[1..], n - 8)
  }

  /** Reads writes back off the end: a length, and before it that many bytes' words. */
  function Decoded(words: seq<u64>): seq<seq<Byte>>
    decreases |words|
  {
    if words == [] then []
    else
      var n: nat, body := words[|words| - 1], words[..|words| - 1];
      var k := (n + 7) / 8;
      if k > |body| then []
      else Decoded(body[..|body| - k]) + [Unpacked(body[|body| - k..], n)]
  }

  lemma {:induction false} UnpacksBody(bytes: seq<Byte>)
    ensures Unpacked(BodyWords(bytes), |bytes|) == bytes
    decreases |bytes|
  {
    if bytes == [] {
    } else if |bytes| < 8 {
      WordKeepsBytes(bytes, 8);
    } else {
      WordKeepsBytes(bytes[..8], 8);
      UnpacksBody(bytes[8..]);
      assert ToLittleEndian(WordOf(bytes[..8]), 8) == bytes[..8];
      assert BodyWords(bytes)[1..] == BodyWords(bytes[8..]);
    }
  }

  lemma DecodesLast(before: seq<u64>, bytes: seq<Byte>)
    requires |bytes| < TWO64
    ensures Decoded(before + WordsOf(bytes)) == Decoded(before) + [bytes]
  {
    var words, body := before + WordsOf(bytes), BodyWords(bytes);
    assert words[..|words| - 1] == before + body && words[|words| - 1] == |bytes|;
    assert (before + body)[|before|..] == body && (before + body)[..|before|] == before;
    UnpacksBody(bytes);
  }

  /** The words of any sequence of writes give those writes back, so no two sequences of
      writes mix in the same words. */
  lemma {:induction false} WritesDecode(writes: seq<seq<Byte>>)
    requires forall i :: 0 <= i < |writes| ==> |writes[i]| < TWO64
    ensures Decoded(AllWords(writes)) == writes
    decreases |writes|
  {
    if writes != [] {
      var init := writes[..|writes| - 1];
      WritesDecode(init);
      DecodesLast(AllWords(init), writes[|writes| - 1]);
    }
  }

  // ---------------------------------------------------------------------------
  // In place
  // ---------------------------------------------------------------------------

  class StableHasher {
    var state: u64

    constructor ()
      ensures state == SEED
    {
      state := SEED;
    }

    method Mix(word: u64)
      modifies this
      ensures state == Mixed(old(state), word)
    {
      state := XorWords(state, word);
      state := WrappingMul(state, MULTIPLIER);
      state := RotateLeft29(state);
      state := WrappingAdd(state, INCREMENT);
    }

    /** Eight bytes at a time, then the tail, then the length. */
    method Write(bytes: seq<Byte>)
      requires |bytes| < TWO64
      modifies this
      ensures state == MixedAll(old(state), WordsOf(bytes))
    {
      var rest := bytes;
      ghost var done: seq<u64> := [];
      while |rest| >= 8
        invariant state == MixedAll(old(state), done) && BodyWords(bytes) == done + BodyWords(rest)
      {
        MixedOneMore(old(state), done, WordOf(rest[..8]));
        Mix(WordOf(rest[..8]));
        done := done + [WordOf(rest[..8])];
        rest := rest[8..];
      }
      if rest != [] {
        MixedOneMore(old(state), done, WordOf(rest));
        Mix(WordOf(rest));
        done := done + [WordOf(rest)];
      }
      assert done == BodyWords(bytes);
      MixedOneMore(old(state), done, |bytes|);
      Mix(|bytes|);
    }

    /** A key's writes, one after the other: what is hashed is all their words. */
    method WriteAll(writes: seq<seq<Byte>>)
      requires forall i :: 0 <= i < |writes| ==> |writes[i]| < TWO64
      modifies this
      ensures state == MixedAll(old(state), AllWords(writes))
    {
      for i := 0 to |writes|
        invariant state == MixedAll(old(state), AllWords(writes[..i]))
      {
        assert writes[..i + 1][..i] == writes[..i];
        Write(writes[i]);
        MixedInTwo(old(state), AllWords(writes[..i]), WordsOf(writes[i]));
      }
      assert writes[..|writes|] == writes;
    }

    method Finish() returns (hash: u64)
      ensures hash == Finished(state)
    {
      var h := state;
      h := XorWords(h, h / 0x2_0000_0000);
      h := WrappingMul(h, FIRST);
      h := XorWords(h, h / 0x2_0000_0000);
      h := WrappingMul(h, SECOND);
      h := XorWords(h, h / 0x2_0000_0000);
      hash := h;
    }
  }

  lemma MixedOneMore(state: u64, words: seq<u64>, word: u64)
    ensures MixedAll(state, words + [word]) == Mixed(MixedAll(state, words), word)
  {
    assert (words + [word])[..|words|] == words;
  }
}
