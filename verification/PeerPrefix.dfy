/**
 The prefix a dialing node writes first: its ID, its incarnation and the node-set
 key. One reader takes it off a stream; another looks at the bytes seen so far.
 `utf8` says which byte strings are UTF-8.
 */
module PeerPrefix {
  import opened Numbers
  import opened Options
  import opened Bytes
  import Utf8Text

  const MAX_PREFIX_FIELD := 4096

  type Utf8 = seq<Byte> -> bool

  // ---------------------------------------------------------------------------
  // Big-endian numbers
  // ---------------------------------------------------------------------------

  function ToBigEndian(n: nat, width: nat): (bytes: seq<Byte>)
    ensures |bytes| == width
  {
    if width == 0 then [] else ToBigEndian(n / 256, width - 1) + [n % 256]
  }

  function FromBigEndian(bytes: seq<Byte>): nat {
    if bytes == [] then 0 else 256 * FromBigEndian(bytes[..|bytes| - 1]) + bytes[|bytes| - 1]
  }

  lemma {:induction false} BigEndianRoundTrip(n: nat, width: nat)
    requires n < Pow256(width)
    ensures FromBigEndian(ToBigEndian(n, width)) == n
  {
    if width > 0 {
      BigEndianRoundTrip(n / 256, width - 1);
      assert ToBigEndian(n, width)[..width - 1] == ToBigEndian(n / 256, width - 1);
    }
  }

  /** The byte at `i` of `width` is the number's digit to base 256, the highest first. */
  lemma {:induction false} BigEndianBytes(n: nat, width: nat, i: nat)
    requires i < width
    ensures ToBigEndian(n, width)[i] == n / Pow256(width - 1 - i) % 256
    decreases width
  {
    if i < width - 1 {
      BigEndianBytes(n / 256, width - 1, i);
      DivideTwice(n, Pow256(width - 2 - i));
    }
  }

  lemma DivideTwice(n: nat, p: nat)
    requires p > 0
    ensures n / (256 * p) == n / 256 / p
  {
    var q, r := n / 256 / p, n / 256 % p;
    assert n / 256 == q * p + r;
    assert n == q * (256 * p) + (256 * r + n % 256);
    Quotient(n, 256 * p, q, 256 * r + n % 256);
  }

  lemma {:induction false} BigEndianIsOnto(bytes: seq<Byte>)
    ensures FromBigEndian(bytes) < Pow256(|bytes|) && ToBigEndian(FromBigEndian(bytes), |bytes|) == bytes
    decreases |bytes|
  {
    if bytes != [] {
      var init := bytes[..|bytes| - 1];
      BigEndianIsOnto(init);
      assert FromBigEndian(bytes) / 256 == FromBigEndian(init);
      assert bytes == init + [bytes[|bytes| - 1]];
    }
  }

  // ---------------------------------------------------------------------------
  // Writing
  // ---------------------------------------------------------------------------

  datatype Prefix = Prefix(nodeId: seq<Byte>, incarnation: nat, nodeSet: seq<Byte>)

  /** What Rust's types say: strings are UTF-8 and the incarnation is a u64. */
  predicate WellTyped(utf8: Utf8, p: Prefix) {
    utf8(p.nodeId) && utf8(p.nodeSet) && p.incarnation < Pow256(8)
  }

  predicate FieldsFit(p: Prefix) {
    |p.nodeId| <= MAX_PREFIX_FIELD && |p.nodeSet| <= MAX_PREFIX_FIELD
  }

  function Field(field: seq<Byte>): seq<Byte> {
    ToBigEndian(|field|, 2) + field
  }

  /** The bytes of a prefix whose fields fit. */
  function Encoded(p: Prefix): (bytes: seq<Byte>)
    ensures FieldsFit(p) ==> |bytes| <= 12 + 2 * MAX_PREFIX_FIELD
  {
    Field(p.nodeId) + (ToBigEndian(p.incarnation, 8) + Field(p.nodeSet))
  }

  /** The wire format, byte by byte: the ID's length and the ID, eight bytes of incarnation,
      the key's length and the key; the highest byte of a number first. */
  lemma EncodedLayout(p: Prefix)
    requires FieldsFit(p)
    ensures var b, n := Encoded(p), |p.nodeId|;
            && |b| == 12 + n + |p.nodeSet|
            && b[0] == n / 256 && b[1] == n % 256 && b[2..2 + n] == p.nodeId
            && (forall i :: 2 + n <= i < 10 + n ==> b[i] == p.incarnation / Pow256(9 + n - i) % 256)
            && b[10 + n] == |p.nodeSet| / 256 && b[11 + n] == |p.nodeSet| % 256 && b[12 + n..] == p.nodeSet
  {
    FieldLayout(p.nodeId);
    FieldLayout(p.nodeSet);
    var n := |p.nodeId|;
    forall i | 2 + n <= i < 10 + n ensures Encoded(p)[i] == p.incarnation / Pow256(9 + n - i) % 256 {
      BigEndianBytes(p.incarnation, 8, i - 2 - n);
    }
  }

  lemma FieldLayout(field: seq<Byte>)
    requires |field| <= 4096
    ensures Field(field)[0] == |field| / 256 && Field(field)[1] == |field| % 256 && Field(field)[2..] == field
  {
    BigEndianBytes(|field|, 2, 0);
    BigEndianBytes(|field|, 2, 1);
    assert Pow256(1) == 256 && Pow256(0) == 1;
  }

  /** encode_prefix: fills a buffer, or fails on a field that is too long. */
  method EncodePrefix(p: Prefix) returns (prefix: Option<seq<Byte>>)
    ensures prefix.Some? <==> |p.nodeId| <= 4096 && |p.nodeSet| <= 4096
    ensures prefix.Some? ==> prefix.value == Encoded(p)
  {
    var buffer: seq<Byte> := [];
    if |p.nodeId| > MAX_PREFIX_FIELD {
      return None;
    }
    buffer := buffer + ToBigEndian(|p.nodeId|, 2);
    buffer := buffer + p.nodeId;
    buffer := buffer + ToBigEndian(p.incarnation, 8);
    if |p.nodeSet| > MAX_PREFIX_FIELD {
      return None;
    }
    buffer := buffer + ToBigEndian(|p.nodeSet|, 2);
    buffer := buffer + p.nodeSet;
    assert buffer == Encoded(p);
    return Some(buffer);
  }

  // ---------------------------------------------------------------------------
  // Taking a field off the front
  // ---------------------------------------------------------------------------

  /** All of it is there, more bytes are needed, or it is not one. */
  datatype Taken = Got(field: seq<Byte>, rest: seq<Byte>) | Need | Bad

  function TakeField(utf8: Utf8, bytes: seq<Byte>): (t: Taken)
    ensures t.Got? ==> |t.field| <= MAX_PREFIX_FIELD && utf8(t.field) && bytes == Field(t.field) + t.rest
  {
    if |bytes| < 2 then Need
    else
      var len, after := FromBigEndian(bytes[..2]), bytes[2..];
      if len > MAX_PREFIX_FIELD then Bad
      else if |after| < len then Need
      else if !utf8(after[..len]) then Bad
      else
        BigEndianIsOnto(bytes[..2]);
        Got(after[..len], after[len..])
  }

  lemma FieldLength(field: seq<Byte>, rest: seq<Byte>)
    requires |field| <= MAX_PREFIX_FIELD
    ensures FromBigEndian((Field(field) + rest)[..2]) == |field|
  {
    assert Pow256(2) == 65536;
    BigEndianRoundTrip(|field|, 2);
    assert (Field(field) + rest)[..2] == ToBigEndian(|field|, 2);
  }

  /** A whole field is taken as it was written. */
  lemma TakesField(utf8: Utf8, field: seq<Byte>, rest: seq<Byte>)
    requires |field| <= MAX_PREFIX_FIELD && utf8(field)
    ensures TakeField(utf8, Field(field) + rest) == Got(field, rest)
  {
    var bytes := Field(field) + rest;
    FieldLength(field, rest);
    assert bytes[2..] == field + rest;
  }

  /** Part of a field needs more. */
  lemma NeedsField(utf8: Utf8, field: seq<Byte>, k: nat)
    requires |field| <= MAX_PREFIX_FIELD && k < |Field(field)|
    ensures TakeField(utf8, Field(field)[..k]) == Need
  {
    if k >= 2 {
      FieldLength(field, []);
      assert Field(field)[..k][..2] == (Field(field) + [])[..2];
    }
  }

  /** More bytes change neither a field that is there nor one that is wrong. */
  lemma TakenIsStable(utf8: Utf8, bytes: seq<Byte>, more: seq<Byte>)
    ensures TakeField(utf8, bytes).Bad? ==> TakeField(utf8, bytes + more).Bad?
    ensures TakeField(utf8, bytes).Got? ==>
              TakeField(utf8, bytes + more) == TakeField(utf8, bytes).(rest := TakeField(utf8, bytes).rest + more)
  {
    if |bytes| >= 2 {
      var len := FromBigEndian(bytes[..2]);
      assert (bytes + more)[..2] == bytes[..2] && (bytes + more)[2..] == bytes[2..] + more;
      if |bytes| - 2 >= len {
        assert (bytes[2..] + more)[..len] == bytes[2..][..len];
        assert (bytes[2..] + more)[len..] == bytes[2..][len..] + more;
      }
    }
  }

  // ---------------------------------------------------------------------------
  // Reading the whole prefix off a stream
  // ---------------------------------------------------------------------------

  /** What read_prefix makes of a stream of which `stream` is all that will come, and what
      it leaves; an early end, a field too long or one that is not UTF-8 is an error. */
  function ReadPrefix(utf8: Utf8, stream: seq<Byte>): Option<(Prefix, seq<Byte>)> {
    match TakeField(utf8, stream)
    case Got(nodeId, rest) =>
      if |rest| < 8 then None
      else
        (match TakeField(utf8, rest[8..])
         case Got(nodeSet, after) => Some((Prefix(nodeId, FromBigEndian(rest[..8]), nodeSet), after))
         case _ => None)
    case _ => None
  }

  /** An accepted connection, read a number or a field at a time. */
  class Connection {
    const utf8: Utf8
    /** What has not been read yet. */
    var rest: seq<Byte>

    constructor (utf8: Utf8, stream: seq<Byte>)
      ensures this.utf8 == utf8 && rest == stream
    {
      this.utf8, rest := utf8, stream;
    }

    /** read_u16 and read_u64: bytes until the number is whole. */
    method ReadNumber(width: nat) returns (number: Option<nat>)
      modifies this`rest
      ensures number.Some? <==> width <= |old(rest)|
      ensures number.Some? ==> number.value == FromBigEndian(old(rest)[..width]) && rest == old(rest)[width..]
    {
      var n: nat := 0;
      ghost var stream := rest;
      for i := 0 to width
        invariant i <= |stream| && rest == stream[i..] && n == FromBigEndian(stream[..i])
      {
        if rest == [] {
          return None;
        }
        assert stream[..i + 1][..i] == stream[..i];
        n := 256 * n + rest[0];
        rest := rest[1..];
      }
      return Some(n);
    }

    /** read_field, which agrees with taking a field off the bytes. */
    method ReadField() returns (field: Option<seq<Byte>>)
      modifies this`rest
      ensures field.Some? ==> TakeField(utf8, old(rest)) == Got(field.value, rest)
      ensures field.None? ==> !TakeField(utf8, old(rest)).Got?
    {
      var len := ReadNumber(2);
      if len.None? || len.value > MAX_PREFIX_FIELD || |rest| < len.value {
        return None;
      }
      var bytes := rest[..len.value];
      rest := rest[len.value..];
      return if utf8(bytes) then Some(bytes) else None;
    }

    /** read_prefix: finds a prefix exactly when a look at all the bytes finds a key. */
    method Read() returns (prefix: Option<Prefix>)
      modifies this`rest
      ensures prefix.Some? ==> ReadPrefix(utf8, old(rest)) == Some((prefix.value, rest))
      ensures prefix.None? ==> ReadPrefix(utf8, old(rest)).None?
      ensures prefix.Some? ==> NodeSetOf(utf8, old(rest)) == Key(prefix.value.nodeSet)
      ensures prefix.None? ==> !NodeSetOf(utf8, old(rest)).Key?
    {
      var nodeId := ReadField();
      if nodeId.None? {
        return None;
      }
      var incarnation := ReadNumber(8);
      if incarnation.None? {
        return None;
      }
      var nodeSet := ReadField();
      if nodeSet.None? {
        return None;
      }
      return Some(Prefix(nodeId.value, incarnation.value, nodeSet.value));
    }
  }

  /** Only a prefix that could have been written is ever read, off a stream that starts
      with it. */
  lemma ReadWasWritten(utf8: Utf8, stream: seq<Byte>)
    requires ReadPrefix(utf8, stream).Some?
    ensures var (p, rest) := ReadPrefix(utf8, stream).value;
            FieldsFit(p) && WellTyped(utf8, p) && stream == Encoded(p) + rest
  {
    var (p, rest) := ReadPrefix(utf8, stream).value;
    var after := TakeField(utf8, stream).rest;
    BigEndianIsOnto(after[..8]);
    assert after == ToBigEndian(p.incarnation, 8) + (Field(p.nodeSet) + rest);
    EncodedParts(p, rest);
  }

  lemma EncodedParts(p: Prefix, more: seq<Byte>)
    ensures Encoded(p) + more == Field(p.nodeId) + (ToBigEndian(p.incarnation, 8) + (Field(p.nodeSet) + more))
  {
  }

  lemma SplitAt8(number: seq<Byte>, rest: seq<Byte>)
    requires |number| == 8
    ensures (number + rest)[..8] == number && (number + rest)[8..] == rest
  {
  }

  /** What was written is read, and what follows is left; and nothing else is read. */
  lemma PrefixRoundTrip(utf8: Utf8, p: Prefix, more: seq<Byte>)
    requires WellTyped(utf8, p) && FieldsFit(p)
    ensures ReadPrefix(utf8, Encoded(p) + more) == Some((p, more))
  {
    var number, last := ToBigEndian(p.incarnation, 8), Field(p.nodeSet) + more;
    EncodedParts(p, more);
    TakesField(utf8, p.nodeId, number + last);
    SplitAt8(number, last);
    BigEndianRoundTrip(p.incarnation, 8);
    TakesField(utf8, p.nodeSet, more);
  }

  // ---------------------------------------------------------------------------
  // Looking at the bytes so far
  // ---------------------------------------------------------------------------

  /** prefix_node_set. */
  datatype Look = Key(nodeSet: seq<Byte>) | Partial | Wrong

  function NodeSetOf(utf8: Utf8, bytes: seq<Byte>): Look {
    match TakeField(utf8, bytes)
    case Need => Partial
    case Bad => Wrong
    case Got(_, rest) =>
      if |rest| < 8 then Partial
      else
        match TakeField(utf8, rest[8..])
        case Need => Partial
        case Bad => Wrong
        case Got(nodeSet, _) => Key(nodeSet)
  }

  /** It finds the key exactly when a whole prefix has come, that of the prefix, which is
      the one the stream's reader will find. */
  lemma KeyMeansPrefix(utf8: Utf8, bytes: seq<Byte>)
    ensures NodeSetOf(utf8, bytes).Key? <==> ReadPrefix(utf8, bytes).Some?
    ensures NodeSetOf(utf8, bytes).Key? ==> NodeSetOf(utf8, bytes).nodeSet == ReadPrefix(utf8, bytes).value.0.nodeSet
  {
  }

  /** Every extension of a written prefix gives its key. */
  lemma WholePrefixGivesKey(utf8: Utf8, p: Prefix, more: seq<Byte>)
    requires WellTyped(utf8, p) && FieldsFit(p)
    ensures NodeSetOf(utf8, Encoded(p) + more) == Key(p.nodeSet)
  {
    PrefixRoundTrip(utf8, p, more);
    KeyMeansPrefix(utf8, Encoded(p) + more);
  }

  /** Every strict prefix of it is only part of one. */
  lemma PartOfPrefixIsPartial(utf8: Utf8, p: Prefix, k: nat)
    requires WellTyped(utf8, p) && FieldsFit(p) && k < |Encoded(p)|
    ensures NodeSetOf(utf8, Encoded(p)[..k]) == Partial
  {
    var first, number, second := Field(p.nodeId), ToBigEndian(p.incarnation, 8), Field(p.nodeSet);
    var bytes := Encoded(p)[..k];
    if k < |first| {
      assert bytes == first[..k];
      NeedsField(utf8, p.nodeId, k);
    } else {
      var tail := (number + second)[..k - |first|];
      assert bytes == first + tail;
      TakesField(utf8, p.nodeId, tail);
      if |tail| >= 8 {
        assert tail[8..] == second[..|tail| - 8];
        NeedsField(utf8, p.nodeSet, |tail| - 8);
      }
    }
  }

  /** More bytes change neither a key that was found nor that there is none. */
  lemma LookIsStable(utf8: Utf8, bytes: seq<Byte>, more: seq<Byte>)
    ensures !NodeSetOf(utf8, bytes).Partial? ==> NodeSetOf(utf8, bytes + more) == NodeSetOf(utf8, bytes)
  {
    TakenIsStable(utf8, bytes, more);
    var t := TakeField(utf8, bytes);
    if t.Got? && |t.rest| >= 8 {
      assert (t.rest + more)[8..] == t.rest[8..] + more;
      TakenIsStable(utf8, t.rest[8..], more);
    }
  }

  // ---------------------------------------------------------------------------
  // When the bytes so far can still start a prefix
  // ---------------------------------------------------------------------------

  predicate IsAscii(bytes: seq<Byte>) {
    forall b :: b in bytes ==> b < 0x80
  }

  /** What is used of UTF-8 here: ASCII is. */
  ghost predicate HoldsAscii(utf8: Utf8) {
    forall bytes: seq<Byte> :: IsAscii(bytes) ==> utf8(bytes)
  }

  /** `part` starts a UTF-8 string of length `len`. */
  ghost predicate Extends(utf8: Utf8, part: seq<Byte>, len: nat) {
    exists tail: seq<Byte> :: |part| + |tail| == len && utf8(part + tail)
  }

  /** An unfinished field that can still be finished: its first length byte leaves room
      for a length of at most 4096, and the bytes it has start a UTF-8 string of its
      length. */
  ghost predicate FieldIsOpen(utf8: Utf8, bytes: seq<Byte>) {
    if |bytes| < 2 then bytes == [] || bytes[0] <= 0x10
    else Extends(utf8, bytes[2..], FromBigEndian(bytes[..2]))
  }

  lemma LengthBytes(n: nat)
    requires n <= MAX_PREFIX_FIELD
    ensures ToBigEndian(n, 2) == [n / 256, n % 256]
  {
    assert ToBigEndian(n / 256, 1) == ToBigEndian(n / 256 / 256, 0) + [n / 256 % 256];
  }

  lemma ShortFieldOpens(utf8: Utf8, bytes: seq<Byte>) returns (more: seq<Byte>)
    requires HoldsAscii(utf8) && |bytes| < 2 && FieldIsOpen(utf8, bytes)
    ensures TakeField(utf8, bytes + more).Got? && TakeField(utf8, bytes + more).rest == []
  {
    var high: nat := if bytes == [] then 0 else bytes[0];
    var field := seq(256 * high, _ => 0);
    assert IsAscii(field);
    LengthBytes(|field|);
    more := (if bytes == [] then [0] else []) + [0] + field;
    assert bytes + more == Field(field) + [];
    TakesField(utf8, field, []);
  }

  lemma LongFieldOpens(utf8: Utf8, bytes: seq<Byte>) returns (more: seq<Byte>)
    requires |bytes| >= 2 && TakeField(utf8, bytes).Need? && FieldIsOpen(utf8, bytes)
    ensures TakeField(utf8, bytes + more).Got? && TakeField(utf8, bytes + more).rest == []
  {
    var len := FromBigEndian(bytes[..2]);
    more :| |bytes[2..]| + |more| == len && utf8(bytes[2..] + more);
    assert (bytes + more)[..2] == bytes[..2] && (bytes + more)[2..] == bytes[2..] + more;
    assert (bytes[2..] + more)[..len] == bytes[2..] + more;
  }

  lemma OpenedWasOpen(utf8: Utf8, bytes: seq<Byte>, more: seq<Byte>)
    requires TakeField(utf8, bytes).Need? && TakeField(utf8, bytes + more).Got?
    ensures FieldIsOpen(utf8, bytes)
  {
    var all, field := bytes + more, TakeField(utf8, bytes + more).field;
    FieldLength(field, TakeField(utf8, all).rest);
    if |bytes| == 1 {
      LengthBytes(|field|);
      assert all[0] == Field(field)[0];
    } else if |bytes| >= 2 {
      assert all[..2] == bytes[..2];
      assert field == all[2..][..|field|];
      var tail := field[|bytes| - 2..];
      assert bytes[2..] + tail == field;
    }
  }

  lemma FieldOpens(utf8: Utf8, bytes: seq<Byte>) returns (more: seq<Byte>)
    requires HoldsAscii(utf8) && TakeField(utf8, bytes).Need? && FieldIsOpen(utf8, bytes)
    ensures TakeField(utf8, bytes + more).Got? && TakeField(utf8, bytes + more).rest == []
  {
    if |bytes| < 2 { more := ShortFieldOpens(utf8, bytes); } else { more := LongFieldOpens(utf8, bytes); }
  }

  /** The bytes can still start a prefix: neither field is wrong, and the one that is not
      whole is open. */
  ghost predicate CanStart(utf8: Utf8, bytes: seq<Byte>) {
    match TakeField(utf8, bytes)
    case Bad => false
    case Need => FieldIsOpen(utf8, bytes)
    case Got(_, rest) =>
      |rest| < 8 ||
      match TakeField(utf8, rest[8..])
      case Bad => false
      case Need => FieldIsOpen(utf8, rest[8..])
      case Got(_, _) => true
  }

  /** With the first field there and the number not whole, zeros will do. */
  lemma NumberOpens(utf8: Utf8, bytes: seq<Byte>) returns (more: seq<Byte>)
    requires HoldsAscii(utf8) && TakeField(utf8, bytes).Got? && |TakeField(utf8, bytes).rest| < 8
    ensures NodeSetOf(utf8, bytes + more).Key?
  {
    var rest := TakeField(utf8, bytes).rest;
    more := seq(10 - |rest|, _ => 0);
    TakenIsStable(utf8, bytes, more);
    assert IsAscii([]);
    LengthBytes(0);
    TakesField(utf8, [], []);
    assert (rest + more)[8..] == Field([]) + [];
  }

  /** With the number there too, it is up to the second field. */
  lemma SecondFieldOpens(utf8: Utf8, bytes: seq<Byte>) returns (more: seq<Byte>)
    requires HoldsAscii(utf8) && CanStart(utf8, bytes)
    requires TakeField(utf8, bytes).Got? && |TakeField(utf8, bytes).rest| >= 8
    ensures NodeSetOf(utf8, bytes + more).Key?
  {
    var rest := TakeField(utf8, bytes).rest;
    var second := rest[8..];
    more := [];
    if TakeField(utf8, second).Need? { more := FieldOpens(utf8, second); } else { assert second + more == second; }
    LaterKey(utf8, bytes, more);
  }

  lemma LaterKey(utf8: Utf8, bytes: seq<Byte>, more: seq<Byte>)
    requires TakeField(utf8, bytes).Got? && |TakeField(utf8, bytes).rest| >= 8
    requires TakeField(utf8, TakeField(utf8, bytes).rest[8..] + more).Got?
    ensures NodeSetOf(utf8, bytes + more).Key?
  {
    var rest := TakeField(utf8, bytes).rest;
    TakenIsStable(utf8, bytes, more);
    assert (rest + more)[8..] == rest[8..] + more;
  }

  /** Some continuation of the bytes holds a prefix if and only if they can still start one;
      so a refusal is always right, and an answer that more bytes are needed is right
      exactly on bytes that can. */
  lemma StartsExactly(utf8: Utf8, bytes: seq<Byte>)
    requires HoldsAscii(utf8)
    ensures (exists more :: NodeSetOf(utf8, bytes + more).Key?) <==> CanStart(utf8, bytes)
    ensures NodeSetOf(utf8, bytes).Wrong? ==> !CanStart(utf8, bytes)
    ensures NodeSetOf(utf8, bytes).Key? ==> CanStart(utf8, bytes)
  {
    if CanStart(utf8, bytes) {
      var more := StartCompletes(utf8, bytes);
      assert NodeSetOf(utf8, bytes + more).Key?;
    }
    if more :| NodeSetOf(utf8, bytes + more).Key? { CompletedCouldStart(utf8, bytes, more); }
  }

  lemma StartCompletes(utf8: Utf8, bytes: seq<Byte>) returns (more: seq<Byte>)
    requires HoldsAscii(utf8) && CanStart(utf8, bytes)
    ensures NodeSetOf(utf8, bytes + more).Key?
  {
    var t := TakeField(utf8, bytes);
    if t.Got? && |t.rest| >= 8 {
      more := SecondFieldOpens(utf8, bytes);
    } else if t.Got? {
      more := NumberOpens(utf8, bytes);
    } else {
      more := FirstFieldOpens(utf8, bytes);
    }
  }

  lemma FirstFieldOpens(utf8: Utf8, bytes: seq<Byte>) returns (more: seq<Byte>)
    requires HoldsAscii(utf8) && TakeField(utf8, bytes).Need? && FieldIsOpen(utf8, bytes)
    ensures NodeSetOf(utf8, bytes + more).Key?
  {
    var first := FieldOpens(utf8, bytes);
    var second := NumberOpens(utf8, bytes + first);
    more := first + second;
    Appended(bytes, first, second);
  }

  lemma Appended(bytes: seq<Byte>, first: seq<Byte>, second: seq<Byte>)
    ensures bytes + (first + second) == bytes + first + second
  {
  }

  lemma CompletedCouldStart(utf8: Utf8, bytes: seq<Byte>, more: seq<Byte>)
    requires HoldsAscii(utf8) && NodeSetOf(utf8, bytes + more).Key?
    ensures CanStart(utf8, bytes)
  {
    TakenIsStable(utf8, bytes, more);
    var t := TakeField(utf8, bytes);
    if t.Need? {
      OpenedWasOpen(utf8, bytes, more);
    } else if |t.rest| >= 8 {
      assert (t.rest + more)[8..] == t.rest[8..] + more;
      TakenIsStable(utf8, t.rest[8..], more);
      if TakeField(utf8, t.rest[8..]).Need? { OpenedWasOpen(utf8, t.rest[8..], more); }
    }
  }

  /** One byte can already be too much: a length byte of 0x11 needs a field of more than
      4096 bytes, yet the answer is that more bytes are needed. */
  lemma LongLengthIsRefusedLate(utf8: Utf8, more: seq<Byte>)
    requires HoldsAscii(utf8)
    ensures NodeSetOf(utf8, [0x11]) == Partial && !NodeSetOf(utf8, [0x11] + more).Key?
  {
    StartsExactly(utf8, [0x11]);
    assert !CanStart(utf8, [0x11]);
  }

  lemma RealUtf8HoldsAscii()
    ensures HoldsAscii(Utf8Text.IsUtf8)
  {
    forall bytes: seq<Byte> | IsAscii(bytes) ensures Utf8Text.IsUtf8(bytes) { Utf8Text.AsciiIsUtf8(bytes); }
  }

  /** So with UTF-8 itself it holds outright. */
  lemma RealStartsExactly(bytes: seq<Byte>)
    ensures (exists more :: NodeSetOf(Utf8Text.IsUtf8, bytes + more).Key?) <==> CanStart(Utf8Text.IsUtf8, bytes)
  {
    RealUtf8HoldsAscii();
    StartsExactly(Utf8Text.IsUtf8, bytes);
  }

  /** With UTF-8 itself an unfinished field is open exactly if its bytes hold no fault and
      what its last character misses fits in its length. */
  lemma RealFieldIsOpen(bytes: seq<Byte>)
    requires |bytes| >= 2 && TakeField(Utf8Text.IsUtf8, bytes).Need?
    ensures var state, left := Utf8Text.After(Utf8Text.Start, bytes[2..]), FromBigEndian(bytes[..2]) - (|bytes| - 2);
            FieldIsOpen(Utf8Text.IsUtf8, bytes) <==> state != Utf8Text.Broken && Utf8Text.Missing(state) <= left
  {
    var part, len := bytes[2..], FromBigEndian(bytes[..2]);
    Utf8Text.ExtendsExactly(part, len - |part|);
    assert Extends(Utf8Text.IsUtf8, part, len) <==>
           exists tail: seq<Byte> :: |tail| == len - |part| && Utf8Text.IsUtf8(part + tail);
  }

  /** So can a byte inside a field: 0xFF is in no UTF-8 string, yet with one more byte of
      the field to come the answer is that more bytes are needed. */
  lemma BadTextIsRefusedLate(more: seq<Byte>)
    ensures NodeSetOf(Utf8Text.IsUtf8, [0, 2, 0xFF]) == Partial
    ensures !NodeSetOf(Utf8Text.IsUtf8, [0, 2, 0xFF] + more).Key?
  {
    var bytes: seq<Byte> := [0, 2, 0xFF];
    FaultyField(bytes);
    RealUtf8HoldsAscii();
    StartsExactly(Utf8Text.IsUtf8, bytes);
  }

  lemma FaultyField(bytes: seq<Byte>)
    requires bytes == [0, 2, 0xFF]
    ensures TakeField(Utf8Text.IsUtf8, bytes).Need? && !FieldIsOpen(Utf8Text.IsUtf8, bytes)
  {
    LengthBytes(2);
    assert Pow256(2) == 65536;
    BigEndianRoundTrip(2, 2);
    assert bytes[..2] == [0, 2] && bytes[2..] == [0xFF];
    RealFieldIsOpen(bytes);
    assert Utf8Text.After(Utf8Text.Start, [0xFF]) == Utf8Text.Broken;
  }
}
