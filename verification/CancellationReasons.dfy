/**
 Cancellation reasons, their text, and how a peer that receives the text decides
 whether it reports a failure.
 */
module CancellationReasons {
  import opened Options

  datatype Reason =
    | UserRequested
    | RuntimeShutdown
    | NetworkError(detail: string)
    | WorkerFailed(detail: string)
    | HandleDropped
    | OperatorError(detail: string)
    | PeerCancelled(peerId: string, detail: string)
    | PeerDown(nodeId: string)
    | InternalError(detail: string)

  const PEER := "peer "
  const CANCELLED_DATAFLOW := " cancelled dataflow: "
  const NETWORK_ERROR := "network error: "
  const WORKER_FAILED := "worker failed: "
  const OPERATOR_ERROR := "operator error: "
  const PEER_NODE_DOWN := "peer node down: "
  const INTERNAL_ERROR := "internal error: "

  /** The Display text. */
  function Text(r: Reason): string {
    match r
    case UserRequested => "user requested cancellation"
    case RuntimeShutdown => "runtime shutdown"
    case NetworkError(detail) => NETWORK_ERROR + detail
    case WorkerFailed(detail) => WORKER_FAILED + detail
    case HandleDropped => "handle dropped"
    case OperatorError(detail) => OPERATOR_ERROR + detail
    case PeerCancelled(peerId, detail) => PEER + peerId + CANCELLED_DATAFLOW + detail
    case PeerDown(nodeId) => PEER_NODE_DOWN + nodeId
    case InternalError(detail) => INTERNAL_ERROR + detail
  }

  /** The texts that peers exchange. */
  lemma TextsAre(detail: string, peerId: string)
    ensures Text(NetworkError(detail)) == "network error: " + detail
    ensures Text(WorkerFailed(detail)) == "worker failed: " + detail
    ensures Text(OperatorError(detail)) == "operator error: " + detail
    ensures Text(InternalError(detail)) == "internal error: " + detail
    ensures Text(PeerDown(peerId)) == "peer node down: " + peerId
    ensures Text(PeerCancelled(peerId, detail)) == "peer " + (peerId + (" cancelled dataflow: " + detail))
  {
    assert PEER + peerId + CANCELLED_DATAFLOW + detail == PEER + (peerId + (CANCELLED_DATAFLOW + detail));
  }

  predicate StartsWithFailure(text: string) {
    || NETWORK_ERROR <= text
    || WORKER_FAILED <= text
    || OPERATOR_ERROR <= text
    || PEER_NODE_DOWN <= text
    || INTERNAL_ERROR <= text
  }

  predicate OccursAt(pattern: string, text: string, i: nat) {
    i + |pattern| <= |text| && text[i..i + |pattern|] == pattern
  }

  /** Where `pattern` first occurs in `text` at or after `from`. */
  function Find(pattern: string, text: string, from: nat): (r: Option<nat>)
    ensures r.Some? ==> from <= r.value && OccursAt(pattern, text, r.value)
    ensures forall i :: from <= i && (r.None? || i < r.value) ==> !OccursAt(pattern, text, i)
    decreases |text| - from
  {
    if OccursAt(pattern, text, from) then Some(from)
    else if from + |pattern| >= |text| then None
    else Find(pattern, text, from + 1)
  }

  /** Whether `text` is the text of a failure, possibly forwarded by peers. */
  predicate DescribesFailure(text: string)
    decreases |text|
  {
    StartsWithFailure(text) || (Unwrap(text).Some? && DescribesFailure(Unwrap(text).value))
  }

  /** What a forwarding peer wrapped: the part after the first " cancelled
      dataflow: " of a text that starts with "peer ". */
  function Unwrap(text: string): (r: Option<string>)
    ensures r.Some? ==> |r.value| < |text|
  {
    if PEER <= text then
      match Find(CANCELLED_DATAFLOW, text[|PEER|..], 0)
      case Some(i) => Some(text[|PEER| + i + |CANCELLED_DATAFLOW|..])
      case None => None
    else None
  }

  /** describes_failure's loop, over a text that shrinks. */
  method DescribesFailureLoop(text: string) returns (r: bool)
    ensures r == DescribesFailure(text)
  {
    var detail := text;
    while true
      invariant DescribesFailure(detail) == DescribesFailure(text)
      decreases |detail|
    {
      if StartsWithFailure(detail) {
        return true;
      }
      match Unwrap(detail) {
        case Some(forwarded) => detail := forwarded;
        case None => return false;
      }
    }
  }

  /** Whether a reason reports a failure rather than a requested stop. */
  predicate IsFailure(r: Reason) {
    match r
    case NetworkError(_) => true
    case WorkerFailed(_) => true
    case OperatorError(_) => true
    case PeerDown(_) => true
    case InternalError(_) => true
    case PeerCancelled(_, detail) => DescribesFailure(detail)
    case UserRequested => false
    case RuntimeShutdown => false
    case HandleDropped => false
  }

  // ---------------------------------------------------------------------------
  // Which peer IDs forward a reason unchanged
  // ---------------------------------------------------------------------------

  const NODE_DOWN := "node down: "

  /** The peer IDs whose wrapping is undone exactly: the ID does not read as
      "node down: ", and either the separator first occurs right after it, or what
      follows an earlier separator inside it reads as a wrapping of its own. */
  predicate Transparent(peerId: string)
    decreases |peerId|
  {
    && !(NODE_DOWN <= peerId + CANCELLED_DATAFLOW)
    && match Find(CANCELLED_DATAFLOW, peerId + CANCELLED_DATAFLOW, 0)
       case None => false
       case Some(i) =>
         || i == |peerId|
         || (i + |CANCELLED_DATAFLOW| <= |peerId|
             && var inner := peerId[i + |CANCELLED_DATAFLOW|..];
                PEER <= inner && Transparent(inner[|PEER|..]))
  }

  /** The text a peer named `peerId` forwards for a reason whose text is `detail`. */
  function Wrap(peerId: string, detail: string): string {
    PEER + peerId + CANCELLED_DATAFLOW + detail
  }

  /** A prefix of `a + b` no longer than `a` is one of `a`. */
  lemma PrefixOfHead(p: string, a: string, b: string)
    requires |p| <= |a|
    ensures p <= a + b <==> p <= a
  {
    assert (a + b)[..|p|] == a[..|p|];
  }

  lemma StripPrefix(p: string, q: string, t: string)
    ensures p + q <= p + t <==> q <= t
  {
    if q <= t { assert p + t == p + q + t[|q|..]; }
    if p + q <= p + t {
      assert t == (p + t)[|p|..];
      assert forall k :: 0 <= k < |q| ==> q[k] == (p + q)[|p| + k];
    }
  }

  lemma WrapStart(peerId: string, detail: string)
    ensures StartsWithFailure(Wrap(peerId, detail)) <==> NODE_DOWN <= peerId + CANCELLED_DATAFLOW
  {
    var head := peerId + CANCELLED_DATAFLOW;
    assert Wrap(peerId, detail) == PEER + (head + detail);
    assert PEER_NODE_DOWN == PEER + NODE_DOWN;
    StripPrefix(PEER, NODE_DOWN, head + detail);
    PrefixOfHead(NODE_DOWN, head, detail);
    assert Wrap(peerId, detail)[0] == 'p';
    NoFailureByFirst(Wrap(peerId, detail));
  }

  /** Every failure text but "peer node down: ..." starts with another letter. */
  lemma NoFailureByFirst(text: string)
    requires text != [] && text[0] !in {'n', 'w', 'o', 'i'}
    ensures StartsWithFailure(text) <==> PEER_NODE_DOWN <= text
  {
    assert NETWORK_ERROR[0] == 'n' && WORKER_FAILED[0] == 'w' && OPERATOR_ERROR[0] == 'o' && INTERNAL_ERROR[0] == 'i';
  }

  /** If `pattern` occurs in `head`, whatever follows does not move its first
      occurrence. */
  lemma FindInHead(pattern: string, head: string, k: nat, tail: string)
    requires OccursAt(pattern, head, k)
    ensures Find(pattern, head, 0).Some? && Find(pattern, head, 0).value <= k
    ensures Find(pattern, head + tail, 0) == Find(pattern, head, 0)
  {
    forall i: nat {:trigger OccursAt(pattern, head, i)} | i + |pattern| <= |head|
      ensures OccursAt(pattern, head + tail, i) == OccursAt(pattern, head, i)
    {
      assert (head + tail)[i..i + |pattern|] == head[i..i + |pattern|];
    }
    var f, g := Find(pattern, head, 0), Find(pattern, head + tail, 0);
    assert OccursAt(pattern, head + tail, k);
    assert OccursAt(pattern, head + tail, f.value);
    assert OccursAt(pattern, head, g.value);
  }

  lemma WrappedParts(p: string, id: string, sep: string, detail: string)
    ensures (p + id + sep + detail)[|p|..] == id + sep + detail && p <= p + id + sep + detail
    ensures (id + sep)[|id|..] == sep
  {
    assert p + id + sep + detail == p + (id + sep + detail);
  }

  lemma DropTwice(p: string, text: string, n: nat)
    requires n <= |text|
    ensures (p + text)[|p| + n..] == text[n..]
  {
  }

  /** Stripping `p` and splitting at the first `sep` of `p + id + sep + detail`. */
  lemma SplitWrapped(p: string, id: string, sep: string, detail: string) returns (i: nat)
    ensures p <= p + id + sep + detail && i <= |id|
    ensures Find(sep, id + sep, 0) == Some(i) == Find(sep, (p + id + sep + detail)[|p|..], 0)
    ensures (p + id + sep + detail)[|p| + i + |sep|..] == (id + sep + detail)[i + |sep|..]
  {
    WrappedParts(p, id, sep, detail);
    FindInHead(sep, id + sep, |id|, detail);
    i := Find(sep, id + sep, 0).value;
    var rest := id + sep + detail;
    assert p + id + sep + detail == p + rest;
    DropTwice(p, rest, i + |sep|);
  }

  lemma WrapUnwraps(peerId: string, detail: string)
    ensures var f := Find(CANCELLED_DATAFLOW, peerId + CANCELLED_DATAFLOW, 0);
            && f.Some? && f.value <= |peerId|
            && Unwrap(Wrap(peerId, detail)) ==
               Some((peerId + CANCELLED_DATAFLOW + detail)[f.value + |CANCELLED_DATAFLOW|..])
  {
    var _ := SplitWrapped(PEER, peerId, CANCELLED_DATAFLOW, detail);
  }

  /** A separator inside the ID cuts the wrapped text there. */
  lemma CutInside(peerId: string, detail: string)
    requires !(NODE_DOWN <= peerId + CANCELLED_DATAFLOW)
    ensures var f := Find(CANCELLED_DATAFLOW, peerId + CANCELLED_DATAFLOW, 0);
            && f.Some?
            && (f.value + |CANCELLED_DATAFLOW| <= |peerId| ==>
                  DescribesFailure(Wrap(peerId, detail)) ==
                  DescribesFailure(peerId[f.value + |CANCELLED_DATAFLOW|..] + CANCELLED_DATAFLOW + detail))
  {
    WrapStart(peerId, detail);
    WrapUnwraps(peerId, detail);
    var i := Find(CANCELLED_DATAFLOW, peerId + CANCELLED_DATAFLOW, 0).value + |CANCELLED_DATAFLOW|;
    if i <= |peerId| {
      assert (peerId + CANCELLED_DATAFLOW + detail)[i..] == peerId[i..] + CANCELLED_DATAFLOW + detail;
    }
  }

  lemma LastPart(a: string, b: string, c: string)
    ensures (a + b + c)[|a| + |b|..] == c
  {
  }

  lemma WholeIdPreserves(peerId: string, detail: string)
    requires !(NODE_DOWN <= peerId + CANCELLED_DATAFLOW)
    requires Find(CANCELLED_DATAFLOW, peerId + CANCELLED_DATAFLOW, 0) == Some(|peerId|)
    ensures DescribesFailure(Wrap(peerId, detail)) == DescribesFailure(detail)
  {
    WrapStart(peerId, detail);
    WrapUnwraps(peerId, detail);
    LastPart(peerId, CANCELLED_DATAFLOW, detail);
  }

  /** The ID inside a transparent ID that holds a separator. */
  lemma InnerId(peerId: string, detail: string) returns (id: string)
    requires Transparent(peerId) && Find(CANCELLED_DATAFLOW, peerId + CANCELLED_DATAFLOW, 0) != Some(|peerId|)
    ensures Transparent(id) && |id| < |peerId|
    ensures DescribesFailure(Wrap(peerId, detail)) == DescribesFailure(Wrap(id, detail))
  {
    CutInside(peerId, detail);
    var i := Find(CANCELLED_DATAFLOW, peerId + CANCELLED_DATAFLOW, 0).value;
    var inner := peerId[i + |CANCELLED_DATAFLOW|..];
    id := inner[|PEER|..];
    assert inner == PEER + id;
  }

  /** A transparent ID's wrapping does not change what a text describes. */
  lemma {:induction false} TransparentPreserves(peerId: string, detail: string)
    requires Transparent(peerId)
    ensures DescribesFailure(Wrap(peerId, detail)) == DescribesFailure(detail)
    decreases |peerId|
  {
    if Find(CANCELLED_DATAFLOW, peerId + CANCELLED_DATAFLOW, 0) == Some(|peerId|) {
      WholeIdPreserves(peerId, detail);
    } else {
      var id := InnerId(peerId, detail);
      TransparentPreserves(id, detail);
    }
  }

  /** A text that starts with none of the failure prefixes nor "peer " is benign. */
  lemma PlainTextIsBenign(text: string)
    requires text != [] && text[0] !in {'n', 'w', 'o', 'i', 'p'}
    ensures !DescribesFailure(text)
  {
    NoFailureByFirst(text);
    assert PEER[0] == 'p';
  }

  const BENIGN := UserRequested
  const FAILING := NetworkError("")

  /** Two reasons that tell a text's classification apart. */
  lemma Witnesses()
    ensures !DescribesFailure(Text(BENIGN)) && !IsFailure(BENIGN)
    ensures Text(FAILING) == NETWORK_ERROR && DescribesFailure(NETWORK_ERROR) && IsFailure(FAILING)
  {
    PlainTextIsBenign(Text(BENIGN));
  }

  /** Two separators overlap in one space only, which leaves a benign text. */
  lemma OverlapIsBenign(peerId: string, i: nat, detail: string)
    requires i < |peerId| < i + |CANCELLED_DATAFLOW| && OccursAt(CANCELLED_DATAFLOW, peerId + CANCELLED_DATAFLOW, i)
    ensures !DescribesFailure((peerId + CANCELLED_DATAFLOW + detail)[i + |CANCELLED_DATAFLOW|..])
  {
    var head := peerId + CANCELLED_DATAFLOW;
    var k := |peerId| - i;
    OverlapByOne(peerId, CANCELLED_DATAFLOW, i);
    assert CANCELLED_DATAFLOW[0] == ' ' && CANCELLED_DATAFLOW[k] == ' ';
    assert k == 10 || k == 20;
    assert CANCELLED_DATAFLOW[11] == 'd' && CANCELLED_DATAFLOW[1] == 'c';
    assert k == 20;
    assert (head + detail)[|peerId| + 1] == CANCELLED_DATAFLOW[1] == 'c';
    PlainTextIsBenign((head + detail)[i + |CANCELLED_DATAFLOW|..]);
  }

  /** An occurrence of `sep` that runs into the final `sep` repeats its start. */
  lemma OverlapByOne(id: string, sep: string, i: nat)
    requires i < |id| < i + |sep| && OccursAt(sep, id + sep, i)
    ensures var k := |id| - i; forall j :: 0 <= j < |sep| - k ==> sep[k + j] == sep[j]
  {
    var k := |id| - i;
    forall j | 0 <= j < |sep| - k ensures sep[k + j] == sep[j] {
      assert sep[k + j] == (id + sep)[i..i + |sep|][k + j] == (id + sep)[|id| + j];
    }
  }

  lemma StartInHead(head: string, detail: string)
    requires |head| >= |CANCELLED_DATAFLOW|
    ensures StartsWithFailure(head + detail) == StartsWithFailure(head)
  {
    PrefixOfHead(NETWORK_ERROR, head, detail);
    PrefixOfHead(WORKER_FAILED, head, detail);
    PrefixOfHead(OPERATOR_ERROR, head, detail);
    PrefixOfHead(PEER_NODE_DOWN, head, detail);
    PrefixOfHead(INTERNAL_ERROR, head, detail);
  }

  /** "peer" alone leaves nothing to split. */
  lemma BarePeerIsBenign()
    ensures Unwrap("peer" + CANCELLED_DATAFLOW + NETWORK_ERROR).None?
  {
    var tail := "cancelled dataflow: ";
    var rest := tail + NETWORK_ERROR;
    assert CANCELLED_DATAFLOW == " " + tail;
    assert PEER == "peer" + " ";
    assert "peer" + CANCELLED_DATAFLOW + NETWORK_ERROR == PEER + rest;
    SpacesApart(rest);
    NoOccurrence(CANCELLED_DATAFLOW, rest);
  }

  lemma SpacesApart(rest: string)
    requires rest == "cancelled dataflow: " + NETWORK_ERROR
    ensures forall i :: 0 <= i < |rest| - 1 ==> rest[i] != ' ' || rest[i + 1] != 'c'
  {
    assert rest[10] == 'd' && rest[20] == 'n' && rest[28] == 'e';
    assert forall i :: 0 <= i < |rest| - 1 ==> rest[i] == ' ' ==> i == 9 || i == 19 || i == 27;
  }

  lemma NoOccurrence(pattern: string, text: string)
    requires |pattern| >= 2 && forall i :: 0 <= i < |text| - 1 ==> text[i] != pattern[0] || text[i + 1] != pattern[1]
    ensures forall i: nat :: !OccursAt(pattern, text, i)
  {
    forall i: nat ensures !OccursAt(pattern, text, i) {
      if i + |pattern| <= |text| {
        assert text[i..i + |pattern|][0] == text[i] && text[i..i + |pattern|][1] == text[i + 1];
      }
    }
  }

  /** A text that does not start as a wrapping, followed by the separator, is
      classified the same whatever comes after. */
  lemma InnerLoses(inner: string) returns (r: Reason)
    requires !(PEER <= inner)
    ensures r == BENIGN || r == FAILING
    ensures DescribesFailure(inner + CANCELLED_DATAFLOW + Text(r)) != IsFailure(r)
  {
    Witnesses();
    var head := inner + CANCELLED_DATAFLOW;
    if StartsWithFailure(head) {
      StartInHead(head, Text(BENIGN));
      return BENIGN;
    }
    r := FAILING;
    var detail := NETWORK_ERROR;
    StartInHead(head, detail);
    if PEER <= head + detail {
      PrefixOfHead(PEER, head, detail);
      assert |inner| < 5;
      assert inner == PEER[..|inner|] && PEER[|inner|] == CANCELLED_DATAFLOW[0] == ' ';
      assert inner == "peer";
      BarePeerIsBenign();
    }
  }

  /** An ID that reads as "node down: ", or one whose own end overlaps the
      separator, gives one classification to every text. */
  lemma BluntIdLoses(peerId: string) returns (r: Reason)
    requires NODE_DOWN <= peerId + CANCELLED_DATAFLOW ||
             var f := Find(CANCELLED_DATAFLOW, peerId + CANCELLED_DATAFLOW, 0);
             f.Some? && f.value < |peerId| < f.value + |CANCELLED_DATAFLOW|
    ensures r == BENIGN || r == FAILING
    ensures DescribesFailure(Wrap(peerId, Text(r))) != IsFailure(r)
  {
    Witnesses();
    if NODE_DOWN <= peerId + CANCELLED_DATAFLOW {
      r := BENIGN;
      WrapStart(peerId, Text(r));
    } else {
      r := FAILING;
      WrapStart(peerId, NETWORK_ERROR);
      WrapUnwraps(peerId, NETWORK_ERROR);
      OverlapIsBenign(peerId, Find(CANCELLED_DATAFLOW, peerId + CANCELLED_DATAFLOW, 0).value, NETWORK_ERROR);
    }
  }

  /** An ID that is not transparent does change some reason's classification. */
  lemma {:induction false} OpaqueLoses(peerId: string) returns (r: Reason)
    requires !Transparent(peerId)
    ensures r == BENIGN || r == FAILING
    ensures DescribesFailure(Wrap(peerId, Text(r))) != IsFailure(r)
    decreases |peerId|
  {
    if NODE_DOWN <= peerId + CANCELLED_DATAFLOW {
      r := BluntIdLoses(peerId);
      return;
    }
    CutInside(peerId, Text(BENIGN));
    CutInside(peerId, Text(FAILING));
    WrapUnwraps(peerId, "");
    var i := Find(CANCELLED_DATAFLOW, peerId + CANCELLED_DATAFLOW, 0).value + |CANCELLED_DATAFLOW|;
    if i > |peerId| {
      r := BluntIdLoses(peerId);
    } else if PEER <= peerId[i..] {
      var id := peerId[i..][|PEER|..];
      r := OpaqueLoses(id);
      assert peerId[i..] == PEER + id;
    } else {
      r := InnerLoses(peerId[i..]);
    }
  }

  /** An ID without spaces is transparent. */
  lemma NoSpaceIsTransparent(peerId: string)
    requires ' ' !in peerId
    ensures Transparent(peerId)
  {
    var head := peerId + CANCELLED_DATAFLOW;
    WrapUnwraps(peerId, "");
    var i := Find(CANCELLED_DATAFLOW, head, 0).value;
    assert head[i] == head[i..i + |CANCELLED_DATAFLOW|][0] == CANCELLED_DATAFLOW[0] == ' ';
    assert head[|peerId|] == ' ' && head[|peerId| + 1] == 'c';
    assert NODE_DOWN[4] == ' ' && NODE_DOWN[5] == 'd';
    assert forall k :: 0 <= k < 4 ==> NODE_DOWN[k] != ' ';
    var k := if |peerId| < 4 then |peerId| else if |peerId| == 4 then 5 else 4;
    assert head[k] != NODE_DOWN[k];
  }

  // ---------------------------------------------------------------------------
  // Forwarding through any number of peers
  // ---------------------------------------------------------------------------

  /** The reason the last of `peers` sees when each forwards the text of what it
      saw to the next. */
  function Forwarded(r: Reason, peers: seq<string>): Reason {
    if peers == [] then r
    else PeerCancelled(peers[|peers| - 1], Text(Forwarded(r, peers[..|peers| - 1])))
  }

  predicate IdOk(r: Reason) {
    r.PeerCancelled? ==> Transparent(r.peerId)
  }

  /** A reason's text describes a failure exactly if the reason is one. */
  lemma TextDescribesReason(r: Reason)
    requires IdOk(r)
    ensures DescribesFailure(Text(r)) == IsFailure(r)
  {
    match r
    case PeerCancelled(peerId, detail) => TransparentPreserves(peerId, detail);
    case UserRequested => PlainTextIsBenign(Text(r));
    case RuntimeShutdown => PlainTextIsBenign(Text(r));
    case HandleDropped => PlainTextIsBenign(Text(r));
    case _ =>
  }

  /** Forwarding through any number of peers keeps the classification. */
  lemma {:induction false} ForwardingPreserves(r: Reason, peers: seq<string>)
    requires IdOk(r) && forall p :: p in peers ==> Transparent(p)
    ensures IsFailure(Forwarded(r, peers)) == IsFailure(r)
    ensures IdOk(Forwarded(r, peers))
    decreases |peers|
  {
    if peers != [] {
      var before := peers[..|peers| - 1];
      ForwardingPreserves(r, before);
      OneForward(Forwarded(r, before), peers[|peers| - 1]);
    }
  }

  lemma OneForward(r: Reason, peerId: string)
    requires IdOk(r) && Transparent(peerId)
    ensures IsFailure(PeerCancelled(peerId, Text(r))) == IsFailure(r) && IdOk(PeerCancelled(peerId, Text(r)))
  {
    TextDescribesReason(r);
  }

  lemma ForwardedTwice(r: Reason, peerId: string, next: string)
    ensures Forwarded(r, [peerId, next]) == PeerCancelled(next, Wrap(peerId, Text(r)))
  {
    assert [peerId, next][..1] == [peerId] && [peerId][..0] == [];
    assert Forwarded(r, [peerId]) == PeerCancelled(peerId, Text(Forwarded(r, [])));
  }

  /** And it is exactly the transparent IDs that may forward: any other ID changes
      the classification some reason has at the next peer. */
  lemma TransparentExactly(peerId: string, next: string)
    ensures Transparent(peerId) <==> forall r :: IdOk(r) ==> IsFailure(Forwarded(r, [peerId, next])) == IsFailure(r)
  {
    if Transparent(peerId) {
      forall r | IdOk(r) ensures IsFailure(Forwarded(r, [peerId, next])) == IsFailure(r) {
        TransparentPreserves(peerId, Text(r));
        TextDescribesReason(r);
        ForwardedTwice(r, peerId, next);
      }
    } else {
      var r := OpaqueLoses(peerId);
      ForwardedTwice(r, peerId, next);
      assert IdOk(r) && IsFailure(Forwarded(r, [peerId, next])) != IsFailure(r);
    }
  }

  /** In particular when no peer's ID holds a space. */
  lemma ForwardingPreservesPlainIds(r: Reason, peers: seq<string>)
    requires r.PeerCancelled? ==> ' ' !in r.peerId
    requires forall p :: p in peers ==> ' ' !in p
    ensures IsFailure(Forwarded(r, peers)) == IsFailure(r)
  {
    if r.PeerCancelled? { NoSpaceIsTransparent(r.peerId); }
    forall p | p in peers ensures Transparent(p) { NoSpaceIsTransparent(p); }
    ForwardingPreserves(r, peers);
  }

  /** A peer ID with spaces can turn a requested stop into a failure. */
  lemma SpacedIdMisclassifies()
    ensures IsFailure(Forwarded(UserRequested, ["node down: x", "b"])) && !IsFailure(UserRequested)
  {
    WrapStart("node down: x", Text(UserRequested));
    ForwardedTwice(UserRequested, "node down: x", "b");
    assert NODE_DOWN <= "node down: x" + CANCELLED_DATAFLOW;
  }
}
