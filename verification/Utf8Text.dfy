/**
 Which byte strings are UTF-8, by the grammar in section 4 of RFC 3629, and which can
 still become UTF-8.
 */
module Utf8Text {
  import opened Bytes

  /** What may come next: a new character, or the rest of one. */
  datatype State = Start | Tail1 | Tail2 | Tail3 | AfterE0 | AfterED | AfterF0 | AfterF4 | Broken

  function First(b: Byte): State {
    if b < 0x80 then Start
    else if 0xC2 <= b <= 0xDF then Tail1
    else if b == 0xE0 then AfterE0
    else if b == 0xED then AfterED
    else if 0xE1 <= b <= 0xEF then Tail2
    else if b == 0xF0 then AfterF0
    else if 0xF1 <= b <= 0xF3 then Tail3
    else if b == 0xF4 then AfterF4
    else Broken
  }

  function Step(s: State, b: Byte): State {
    match s
    case Start => First(b)
    case Tail1 => if 0x80 <= b <= 0xBF then Start else Broken
    case Tail2 => if 0x80 <= b <= 0xBF then Tail1 else Broken
    case Tail3 => if 0x80 <= b <= 0xBF then Tail2 else Broken
    case AfterE0 => if 0xA0 <= b <= 0xBF then Tail1 else Broken
    case AfterED => if 0x80 <= b <= 0x9F then Tail1 else Broken
    case AfterF0 => if 0x90 <= b <= 0xBF then Tail2 else Broken
    case AfterF4 => if 0x80 <= b <= 0x8F then Tail2 else Broken
    case Broken => Broken
  }

  function After(s: State, bytes: seq<Byte>): State
    decreases |bytes|
  {
    if bytes == [] then s else After(Step(s, bytes[0]), bytes[1..])
  }

  predicate IsUtf8(bytes: seq<Byte>) {
    After(Start, bytes) == Start
  }

  /** How many bytes an unfinished character still takes. */
  function Missing(s: State): nat {
    match s
    case Start => 0
    case Tail1 => 1
    case Tail2 => 2
    case Tail3 => 3
    case AfterE0 => 2
    case AfterED => 2
    case AfterF0 => 3
    case AfterF4 => 3
    case Broken => 0
  }

  /** A byte that goes on with it. */
  function Another(s: State): Byte {
    match s
    case Start => 0
    case AfterE0 => 0xA0
    case AfterF0 => 0x90
    case _ => 0x80
  }

  /** `n` bytes that finish the character and go on in ASCII. */
  function Filling(s: State, n: nat): (bytes: seq<Byte>)
    ensures |bytes| == n
    decreases n
  {
    if n == 0 then [] else [Another(s)] + Filling(Step(s, Another(s)), n - 1)
  }

  lemma {:induction false} AfterInTwo(s: State, a: seq<Byte>, b: seq<Byte>)
    ensures After(s, a + b) == After(After(s, a), b)
    decreases |a|
  {
    if a == [] {
      assert a + b == b;
    } else {
      assert (a + b)[1..] == a[1..] + b;
      AfterInTwo(Step(s, a[0]), a[1..], b);
    }
  }

  lemma {:induction false} FillingFinishes(s: State, n: nat)
    requires s != Broken && Missing(s) <= n
    ensures After(s, Filling(s, n)) == Start
    decreases n
  {
    if n > 0 { FillingFinishes(Step(s, Another(s)), n - 1); }
  }

  lemma {:induction false} FinishingTakes(s: State, tail: seq<Byte>)
    requires After(s, tail) == Start
    ensures s != Broken && Missing(s) <= |tail|
    decreases |tail|
  {
    if tail != [] { FinishingTakes(Step(s, tail[0]), tail[1..]); }
  }

  /** `part` can become UTF-8 with `n` more bytes exactly if it is not broken and its last
      character is finished by then. */
  lemma ExtendsExactly(part: seq<Byte>, n: nat)
    ensures (exists tail :: |tail| == n && IsUtf8(part + tail)) <==>
            After(Start, part) != Broken && Missing(After(Start, part)) <= n
  {
    var s := After(Start, part);
    if s != Broken && Missing(s) <= n {
      FillingFinishes(s, n);
      AfterInTwo(Start, part, Filling(s, n));
      assert |Filling(s, n)| == n && IsUtf8(part + Filling(s, n));
    }
    if tail :| |tail| == n && IsUtf8(part + tail) {
      AfterInTwo(Start, part, tail);
      FinishingTakes(s, tail);
    }
  }

  lemma {:induction false} AsciiIsUtf8(bytes: seq<Byte>)
    requires forall b :: b in bytes ==> b < 0x80
    ensures IsUtf8(bytes)
    decreases |bytes|
  {
    if bytes != [] {
      assert bytes[0] in bytes && forall b :: b in bytes[1..] ==> b in bytes;
      AsciiIsUtf8(bytes[1..]);
    }
  }
}
