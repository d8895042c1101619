/**
 The relay's look at the first bytes of each dialer, by which it tells which node set
 a connection serves.
 */
module RelayTagging {
  import opened Numbers
  import opened Options
  import opened Bytes
  import opened PeerPrefix

  const MAX_TAG_BYTES := 64 * 1024

  /** `seen` is everything read so far, up to the cap; `looking` turns off for good once
      there is a tag, none can come, or the cap or the end of stream is reached. */
  datatype Tagger = Tagger(seen: seq<Byte>, tag: Option<seq<Byte>>, looking: bool)

  const NEW_TAGGER := Tagger([], None, true)

  function Capped(bytes: seq<Byte>): (r: seq<Byte>)
    ensures |r| == Min(|bytes|, 65536) && r <= bytes
  {
    if |bytes| <= MAX_TAG_BYTES then bytes else bytes[..MAX_TAG_BYTES]
  }

  /** The tag the bytes so far carry. */
  function TagOf(utf8: Utf8, bytes: seq<Byte>): Option<seq<Byte>> {
    var look := NodeSetOf(utf8, Capped(bytes));
    if look.Key? then Some(look.nodeSet) else None
  }

  function Scanned(utf8: Utf8, t: Tagger, bytes: seq<Byte>): Tagger
    requires |t.seen| <= MAX_TAG_BYTES
  {
    if !t.looking then t
    else
      var seen := Capped(t.seen + bytes);
      match NodeSetOf(utf8, seen)
      case Key(nodeSet) => Tagger(seen, Some(nodeSet), false)
      case Partial => Tagger(seen, t.tag, bytes != [] && |seen| < MAX_TAG_BYTES)
      case Wrong => Tagger(seen, t.tag, false)
  }

  function Joined(chunks: seq<seq<Byte>>): seq<Byte> {
    if chunks == [] then [] else Joined(chunks[..|chunks| - 1]) + chunks[|chunks| - 1]
  }

  function ScannedAll(utf8: Utf8, chunks: seq<seq<Byte>>): (t: Tagger)
    ensures |t.seen| <= MAX_TAG_BYTES
  {
    if chunks == [] then NEW_TAGGER
    else Scanned(utf8, ScannedAll(utf8, chunks[..|chunks| - 1]), chunks[|chunks| - 1])
  }

  class Tagging {
    const utf8: Utf8
    var seen: seq<Byte>
    var tag: Option<seq<Byte>>

    ghost predicate Valid()
      reads this
    {
      |seen| <= MAX_TAG_BYTES
    }

    constructor (utf8: Utf8)
      ensures Valid() && seen == [] && tag == None && this.utf8 == utf8
    {
      this.utf8, seen, tag := utf8, [], None;
    }

    /** Shows the reader the next bytes; says whether to keep looking. */
    method Scan(bytes: seq<Byte>) returns (keep: bool)
      requires Valid()
      modifies this
      ensures Valid() && Tagger(seen, tag, keep) == Scanned(utf8, Tagger(old(seen), old(tag), true), bytes)
    {
      var room := MAX_TAG_BYTES - |seen|;
      seen := seen + bytes[..if |bytes| < room then |bytes| else room];
      assert seen == Capped(old(seen) + bytes);
      match NodeSetOf(utf8, seen) {
        case Key(nodeSet) =>
          tag := Some(nodeSet);
          keep := false;
        case Partial => keep := bytes != [] && |seen| < MAX_TAG_BYTES;
        case Wrong => keep := false;
      }
    }

    /** read_chunks' use of it: shown every chunk until it says to stop. */
    method ScanAll(chunks: seq<seq<Byte>>)
      requires Valid() && seen == [] && tag == None
      modifies this
      ensures Valid() && tag == ScannedAll(utf8, chunks).tag
    {
      var looking := true;
      for i := 0 to |chunks|
        invariant Valid() && Tagger(seen, tag, looking) == ScannedAll(utf8, chunks[..i])
      {
        assert chunks[..i + 1][..i] == chunks[..i];
        if looking {
          looking := Scan(chunks[i]);
        }
      }
      assert chunks[..|chunks|] == chunks;
    }
  }

  // ---------------------------------------------------------------------------
  // How the bytes come does not matter
  // ---------------------------------------------------------------------------

  lemma CappedGrows(bytes: seq<Byte>, more: seq<Byte>)
    ensures Capped(bytes) <= Capped(bytes + more)
    ensures |bytes| >= MAX_TAG_BYTES ==> Capped(bytes + more) == Capped(bytes)
    ensures |Capped(bytes)| < MAX_TAG_BYTES ==> Capped(bytes) == bytes
  {
    if |bytes| >= MAX_TAG_BYTES { assert (bytes + more)[..MAX_TAG_BYTES] == bytes[..MAX_TAG_BYTES]; }
  }

  /** A decided tag stays what the bytes say. */
  lemma TagIsStable(utf8: Utf8, bytes: seq<Byte>, more: seq<Byte>)
    requires !NodeSetOf(utf8, Capped(bytes)).Partial? || |bytes| >= MAX_TAG_BYTES
    ensures NodeSetOf(utf8, Capped(bytes + more)) == NodeSetOf(utf8, Capped(bytes))
  {
    CappedGrows(bytes, more);
    var extra := Capped(bytes + more)[|Capped(bytes)|..];
    assert Capped(bytes + more) == Capped(bytes) + extra;
    LookIsStable(utf8, Capped(bytes), extra);
  }

  /** Only the last chunk is empty, which is the end of stream. */
  predicate AreChunks(chunks: seq<seq<Byte>>) {
    forall i :: 0 <= i < |chunks| - 1 ==> chunks[i] != []
  }

  predicate HasEnded(chunks: seq<seq<Byte>>) {
    chunks != [] && chunks[|chunks| - 1] == []
  }

  /** After any chunks the tag is the one their bytes carry; and it keeps looking exactly
      while they are part of a prefix, under the cap, and the stream has not ended. */
  lemma {:induction false} ChunkingDoesNotMatter(utf8: Utf8, chunks: seq<seq<Byte>>)
    requires AreChunks(chunks)
    ensures ScannedAll(utf8, chunks).tag == TagOf(utf8, Joined(chunks))
    ensures ScannedAll(utf8, chunks).looking <==>
              NodeSetOf(utf8, Capped(Joined(chunks))).Partial? && |Joined(chunks)| < 65536 && !HasEnded(chunks)
    ensures ScannedAll(utf8, chunks).looking ==> ScannedAll(utf8, chunks).seen == Joined(chunks)
    decreases |chunks|
  {
    if chunks != [] {
      var init, last := chunks[..|chunks| - 1], chunks[|chunks| - 1];
      ChunkingDoesNotMatter(utf8, init);
      if !ScannedAll(utf8, init).looking { TagIsStable(utf8, Joined(init), last); }
    }
  }

  /** A dialer's stream is tagged with its node set by the very chunk that completes its
      prefix, however it is cut up; the cap never cuts a prefix. */
  lemma TagsByTheCompletingChunk(utf8: Utf8, p: Prefix, chunks: seq<seq<Byte>>, stream: seq<Byte>)
    requires WellTyped(utf8, p) && FieldsFit(p) && Encoded(p) <= stream && Joined(chunks) <= stream
    requires AreChunks(chunks)
    ensures |Joined(chunks)| >= |Encoded(p)| ==> ScannedAll(utf8, chunks).tag == Some(p.nodeSet)
    ensures |Joined(chunks)| < |Encoded(p)| ==>
              ScannedAll(utf8, chunks).tag == None && ScannedAll(utf8, chunks).looking == !HasEnded(chunks)
  {
    ChunkingDoesNotMatter(utf8, chunks);
    if |Joined(chunks)| >= |Encoded(p)| {
      WholeIsTagged(utf8, p, Joined(chunks), stream);
    } else {
      PartIsNotTagged(utf8, p, Joined(chunks), stream);
    }
  }

  lemma WholeIsTagged(utf8: Utf8, p: Prefix, bytes: seq<Byte>, stream: seq<Byte>)
    requires WellTyped(utf8, p) && FieldsFit(p) && Encoded(p) <= stream && bytes <= stream && |bytes| >= |Encoded(p)|
    ensures TagOf(utf8, bytes) == Some(p.nodeSet)
  {
    var whole, seen := Encoded(p), Capped(bytes);
    assert seen[..|whole|] == stream[..|whole|];
    assert seen == whole + seen[|whole|..];
    WholePrefixGivesKey(utf8, p, seen[|whole|..]);
  }

  lemma PartIsNotTagged(utf8: Utf8, p: Prefix, bytes: seq<Byte>, stream: seq<Byte>)
    requires WellTyped(utf8, p) && FieldsFit(p) && Encoded(p) <= stream && bytes <= stream && |bytes| < |Encoded(p)|
    ensures NodeSetOf(utf8, Capped(bytes)) == Partial && |bytes| < MAX_TAG_BYTES
  {
    assert bytes == stream[..|bytes|];
    assert stream[..|bytes|] == Encoded(p)[..|bytes|];
    PartOfPrefixIsPartial(utf8, p, |bytes|);
  }
}
