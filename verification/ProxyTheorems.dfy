/** Every run of one proxied request: the client, the peers and the failures in any order. */
module ProxySystem {
  import opened ProxyRecipe

  /** `live` holds the streams that have not sent a terminal frame yet, `said` what the client
      sent so far and `choked` whether it ended its stream. `early` and `mark` remember whether
      the current stream was replayed with a choke the client had not sent, and after how many
      of its frames. */
  datatype System = System(x: Proxy, live: set<nat>, said: seq<Frame>, choked: bool, early: bool, mark: nat)

  datatype Step =
    | ClientChunk(headers: Headers, data: string, ok: bool, okBack: bool)
    | ClientChoke(headers: Headers, ok: bool, okBack: bool)
    | ClientError(headers: Headers, code: int, ok: bool, okBack: bool)
    | ClientGone(ok: bool)
    | PeerChunk(source: nat, headers: Headers, data: string, ok: bool, okForward: bool)
    | PeerError(source: nat, headers: Headers, code: int, recoverable: bool, attempt: Attempt, ok: bool,
                okForward: bool)
    | PeerChoke(source: nat, headers: Headers, ok: bool, okForward: bool)
    | PeerGone(source: nat, code: int, ok: bool)

  function React(x: Proxy, e: Step): Proxy {
    match e
    case ClientChunk(h, d, ok, okBack) => OnForwardChunk(x, h, d, ok, okBack)
    case ClientChoke(h, ok, okBack) => OnForwardChoke(x, h, ok, okBack)
    case ClientError(h, code, ok, okBack) => OnForwardError(x, h, code, ok, okBack)
    case ClientGone(ok) => OnClientGone(x, ok)
    case PeerChunk(source, h, d, ok, okForward) => OnBackwardChunk(x, source, h, d, ok, okForward)
    case PeerError(source, h, code, recoverable, a, ok, okForward) =>
      OnBackwardError(x, source, h, code, recoverable, a, ok, okForward)
    case PeerChoke(source, h, ok, okForward) => OnBackwardChoke(x, source, h, ok, okForward)
    case PeerGone(source, code, ok) => OnBackwardGone(x, source, code, ok)
  }

  predicate FromPeer(e: Step) {
    e.PeerChunk? || e.PeerError? || e.PeerChoke? || e.PeerGone?
  }

  /** A peer is silent after its terminal frame. */
  predicate Enabled(s: System, e: Step) {
    FromPeer(e) ==> e.source in s.live
  }

  function Live(s: System, e: Step, y: Proxy): set<nat> {
    (if FromPeer(e) && !e.PeerChunk? then s.live - {e.source} else s.live)
    + (if y.streams > s.x.streams then {s.x.streams} else {})
  }

  function Said(e: Step): seq<Frame> {
    match e
    case ClientChunk(h, d, _, _) => [Chunk(h, d)]
    case ClientChoke(h, _, _) => [Choke(h)]
    case _ => []
  }

  function Next(s: System, e: Step): System {
    var y := React(s.x, e);
    var replayed := y.streams > s.x.streams;
    System(y, Live(s, e, y), s.said + Said(e), s.choked || e.ClientChoke?,
           if replayed then y.chokeSent && !s.choked else s.early,
           if replayed then |s.said| else s.mark)
  }

  function Initial(retryLimit: nat, peer: nat, garbage: bool, headers: Headers, event: string, opens: bool, a: Attempt,
                   ok: bool): System {
    var x := Start(retryLimit, peer, garbage, headers, event, opens, a, ok);
    System(x, if x.streams > 0 then {0} else {}, [], false, !opens && x.streams > 0 && garbage, 0)
  }

  ghost predicate Runs(s: System, steps: seq<Step>, t: System)
    decreases |steps|
  {
    if steps == [] then s == t else Enabled(s, steps[0]) && Runs(Next(s, steps[0]), steps[1..], t)
  }
}

/** Whatever fails, the client hears one peer, and at most one end. */
module ProxyResponse {
  import opened Wrappers
  import opened ProxyRecipe
  import opened ProxySystem

  /** Chunks, then at most one terminal frame, which closes the stream. */
  ghost predicate EndsOnce(b: Stream<Reply>) {
    && (forall i :: 0 <= i < |b.sent| ==> IsTerminal(b.sent[i].frame) == (b.closed && i == |b.sent| - 1))
    && (b.closed ==> b.sent != [])
  }

  ghost predicate ChunksFrom(b: Stream<Reply>, source: int) {
    forall i :: 0 <= i < |b.sent| && b.sent[i].frame.Chunk? ==> b.sent[i].source == source
  }

  ghost predicate NoChunk(b: Stream<Reply>) {
    forall i :: 0 <= i < |b.sent| ==> !b.sent[i].frame.Chunk?
  }

  predicate Bounded(x: Proxy) {
    && |x.used| <= 1 + Min(x.retries, x.retryLimit)
    && x.streams <= |x.used|
  }

  ghost predicate Orderly(x: Proxy) {
    && EndsOnce(x.backward)
    && (if x.buffering then NoChunk(x.backward) else ChunksFrom(x.backward, x.streams - 1))
    && Bounded(x)
  }

  ghost predicate Inv(s: System) {
    && (forall i :: i in s.live ==> i == s.x.streams - 1)
    && Orderly(s.x)
  }

  lemma TellKeepsOrder(x: Proxy, source: nat, f: Frame, ok: bool)
    requires Orderly(x) && !f.Enqueue?
    requires f.Chunk? ==> !x.buffering && source == x.streams - 1
    ensures Orderly(TellClient(x, source, f, ok))
  {
  }

  lemma RetryKeepsOrder(x: Proxy, a: Attempt)
    requires Orderly(x)
    ensures var y := Retry(x, a).proxy; Orderly(y) && x.streams <= y.streams <= x.streams + 1
  {
  }

  predicate Steady(x: Proxy, y: Proxy) {
    x.streams == y.streams && x.retryLimit == y.retryLimit
  }

  lemma ForwardedKeepsOrder(x: Proxy, f: Frame, ok: bool, okBack: bool)
    requires Orderly(x)
    ensures var y := Forwarded(x, f, ok, okBack); Orderly(y) && Steady(x, y)
  {
    TellKeepsOrder(TellPeer(x, f, ok), 0, Error("", SEND_FAILED), okBack);
  }

  lemma AnsweredKeepsOrder(x: Proxy, source: nat, f: Frame, ok: bool, okForward: bool)
    requires Orderly(x) && !f.Enqueue?
    requires f.Chunk? ==> !x.buffering && source == x.streams - 1
    ensures var y := Answered(x, source, f, ok, okForward); Orderly(y) && Steady(x, y)
  {
    TellKeepsOrder(x, source, f, ok);
  }

  lemma ClientKeepsOrder(x: Proxy, e: Step)
    requires Orderly(x) && !FromPeer(e)
    ensures Orderly(React(x, e)) && Steady(x, React(x, e))
  {
    match e
    case ClientChunk(h, d, ok, okBack) =>
      ForwardedKeepsOrder(x.(chunks := x.chunks + [d], chunkHeaders := x.chunkHeaders + [h]), Chunk(h, d), ok, okBack);
    case ClientChoke(h, ok, okBack) =>
      ForwardedKeepsOrder(x.(chokeSent := true, chokeHeaders := h), Choke(h), ok, okBack);
    case ClientError(h, code, ok, okBack) => ForwardedKeepsOrder(x, Error(h, code), ok, okBack);
    case ClientGone(_) =>
  }

  lemma ErrorKeepsOrder(x: Proxy, e: Step)
    requires Orderly(x) && e.PeerError?
    ensures var y := React(x, e); Orderly(y) && x.streams <= y.streams <= x.streams + 1 && y.retryLimit == x.retryLimit
  {
    if e.recoverable {
      RetryKeepsOrder(x, e.attempt);
      TellKeepsOrder(Retry(x, e.attempt).proxy, e.source, Error("", RETRY_FAILED), e.ok);
    } else {
      AnsweredKeepsOrder(x, e.source, Error(e.headers, e.code), e.ok, e.okForward);
    }
  }

  lemma PeerKeepsOrder(x: Proxy, e: Step)
    requires Orderly(x) && FromPeer(e) && !e.PeerError? && e.source == x.streams - 1
    ensures Orderly(React(x, e)) && Steady(x, React(x, e))
  {
    match e
    case PeerChunk(source, h, d, ok, okForward) =>
      AnsweredKeepsOrder(DisableBuffering(x), source, Chunk(h, d), ok, okForward);
    case PeerChoke(source, h, ok, okForward) => AnsweredKeepsOrder(x, source, Choke(h), ok, okForward);
    case PeerGone(source, code, ok) => TellKeepsOrder(x, source, Error("", code), ok);
  }

  lemma StepKeepsInv(s: System, e: Step)
    requires Inv(s) && Enabled(s, e)
    ensures Inv(Next(s, e)) && Next(s, e).x.retryLimit == s.x.retryLimit
  {
    if !FromPeer(e) {
      ClientKeepsOrder(s.x, e);
    } else if e.PeerError? {
      ErrorKeepsOrder(s.x, e);
    } else {
      PeerKeepsOrder(s.x, e);
    }
  }

  lemma InitialInv(limit: nat, peer: nat, garbage: bool, headers: Headers, event: string, opens: bool, a: Attempt,
                   ok: bool)
    ensures Inv(Initial(limit, peer, garbage, headers, event, opens, a, ok))
  {
    var x := Fresh(limit, peer, garbage).(enqueueHeaders := headers, enqueueFrame := event);
    RetryKeepsOrder(x, a);
    TellKeepsOrder(Retry(x, a).proxy, 0, Error("", RETRY_FAILED), ok);
  }

  lemma {:induction false} RunsKeepInv(s: System, steps: seq<Step>, t: System)
    requires Inv(s) && Runs(s, steps, t)
    ensures Inv(t) && t.x.retryLimit == s.x.retryLimit
    decreases |steps|
  {
    if steps != [] {
      StepKeepsInv(s, steps[0]);
      RunsKeepInv(Next(s, steps[0]), steps[1..], t);
    }
  }

  lemma {:induction false} SingleSource(limit: nat, peer: nat, garbage: bool, headers: Headers, event: string,
      opens: bool, a: Attempt, ok: bool, steps: seq<Step>, s: System)
    requires Runs(Initial(limit, peer, garbage, headers, event, opens, a, ok), steps, s)
    ensures EndsOnce(s.x.backward)
    ensures ChunksFrom(s.x.backward, s.x.streams - 1)
    ensures |s.x.used| <= 1 + limit && s.x.streams <= |s.x.used|
  {
    InitialInv(limit, peer, garbage, headers, event, opens, a, ok);
    RunsKeepInv(Initial(limit, peer, garbage, headers, event, opens, a, ok), steps, s);
  }

  // ----- no request is forgotten

  /** Every send to the client goes through. */
  predicate Hears(e: Step) {
    match e
    case ClientChunk(_, _, _, okBack) => okBack
    case ClientChoke(_, _, okBack) => okBack
    case ClientError(_, _, _, okBack) => okBack
    case ClientGone(_) => true
    case _ => e.ok
  }

  lemma {:induction false} RunsKeepWatch(s: System, steps: seq<Step>, t: System)
    requires s.live != {} || s.x.backward.closed
    requires Runs(s, steps, t) && forall i :: 0 <= i < |steps| ==> Hears(steps[i])
    ensures t.live != {} || t.x.backward.closed
    decreases |steps|
  {
    if steps != [] {
      var u := Next(s, steps[0]);
      assert Hears(steps[0]);
      assert u.live != {} || u.x.backward.closed by {
        StepKeepsWatch(s, steps[0]);
      }
      RunsKeepWatch(u, steps[1..], t);
    }
  }

  lemma StepKeepsWatch(s: System, e: Step)
    requires s.live != {} || s.x.backward.closed
    requires Enabled(s, e) && Hears(e)
    ensures Next(s, e).live != {} || Next(s, e).x.backward.closed
  {
    var t := Next(s, e);
    if t.x.streams > s.x.streams {
      assert s.x.streams in t.live;
    } else if !FromPeer(e) || e.PeerChunk? {
      assert t.live == s.live;
    }
  }

  lemma {:induction false} NeverForgotten(limit: nat, peer: nat, garbage: bool, headers: Headers, event: string,
      opens: bool, a: Attempt, steps: seq<Step>, s: System)
    requires Runs(Initial(limit, peer, garbage, headers, event, opens, a, true), steps, s)
    requires forall i :: 0 <= i < |steps| ==> Hears(steps[i])
    ensures s.live != {} || s.x.backward.closed
  {
    var s0 := Initial(limit, peer, garbage, headers, event, opens, a, true);
    if s0.x.streams > 0 {
      assert 0 in s0.live;
    }
    RunsKeepWatch(s0, steps, s);
  }
}

/** What the peer sees while the request may still be moved to another one. */
module ProxyReplay {
  import opened Wrappers
  import opened ProxyRecipe
  import opened ProxySystem

  /** The client is still there, says nothing after its choke, and no send fails. Opening a
      stream and choosing a peer may fail at any time. */
  predicate Clean(s: System, e: Step) {
    match e
    case ClientChunk(_, _, ok, _) => ok && !s.choked
    case ClientChoke(_, ok, _) => ok && !s.choked
    case ClientError(_, _, _, _) => false
    case ClientGone(_) => false
    case PeerError(_, _, _, _, a, ok, _) => ok && a.accepts + 1 >= |Replay(s.x)|
    case _ => e.ok
  }

  ghost predicate CleanRun(s: System, steps: seq<Step>, t: System)
    decreases |steps|
  {
    if steps == [] then s == t
    else Enabled(s, steps[0]) && Clean(s, steps[0]) && CleanRun(Next(s, steps[0]), steps[1..], t)
  }

  /** The buffer holds what the client said. */
  ghost predicate Buffered(s: System, garbage: bool, first: Frame) {
    && |s.x.chunkHeaders| == |s.x.chunks|
    && first == Enqueue(s.x.enqueueHeaders, s.x.enqueueFrame)
    && s.said == Zip(s.x.chunkHeaders, s.x.chunks) + (if s.choked then [Choke(s.x.chokeHeaders)] else [])
    && s.x.chokeSent == (garbage || s.choked)
    && (!s.choked ==> s.x.chokeHeaders == "")
  }

  /** What the current stream has been sent. */
  function Seen(s: System, first: Frame): seq<Frame>
    requires s.early ==> s.mark <= |s.said|
  {
    [first] + if s.early then s.said[..s.mark] + [Choke("")] else s.said
  }

  ghost predicate Inv(s: System, garbage: bool, first: Frame) {
    && (s.x.forward.None? ==> s.live == {} && s.x.streams == 0)
    && (s.early ==> garbage && s.mark <= |s.said|)
    && (s.x.forward.Some? && s.x.buffering ==>
          && Buffered(s, garbage, first)
          && s.x.forward.value == Stream(s.early || s.choked, Seen(s, first)))
  }

  lemma ReplaySaid(s: System, garbage: bool, first: Frame)
    requires Buffered(s, garbage, first)
    ensures Replay(s.x) == [first] + s.said + (if garbage && !s.choked then [Choke("")] else [])
  {
  }

  lemma RetryKeepsInv(s: System, e: Step, garbage: bool, first: Frame)
    requires Inv(s, garbage, first) && Enabled(s, e) && Clean(s, e) && e.PeerError?
    ensures Inv(Next(s, e), garbage, first)
  {
    var t := Next(s, e);
    assert s.x.forward.Some?;
    if s.x.buffering {
      ReplaySaid(s, garbage, first);
      if t.x.streams > s.x.streams {
        var peer := e.attempt.chosen.value;
        var x2 := s.x.(retries := s.x.retries + 1, peer := peer, used := s.x.used + [peer]);
        assert Replay(x2) == Replay(s.x);
        assert t.x.forward.value.sent == Replay(s.x);
        assert t.said == s.said && s.said[..|s.said|] == s.said;
      }
    }
  }

  lemma ClientKeepsInv(s: System, e: Step, garbage: bool, first: Frame)
    requires Inv(s, garbage, first) && Clean(s, e) && (e.ClientChunk? || e.ClientChoke?)
    ensures Inv(Next(s, e), garbage, first)
  {
    var t := Next(s, e);
    if s.x.forward.Some? && s.x.buffering {
      if e.ClientChunk? {
        ZipSnoc(s.x.chunkHeaders, s.x.chunks, e.headers, e.data);
      }
      assert s.early ==> t.said[..s.mark] == s.said[..s.mark];
    }
  }

  lemma StepKeepsInv(s: System, e: Step, garbage: bool, first: Frame)
    requires Inv(s, garbage, first) && Enabled(s, e) && Clean(s, e)
    ensures Inv(Next(s, e), garbage, first)
  {
    if e.PeerError? {
      RetryKeepsInv(s, e, garbage, first);
    } else if e.ClientChunk? || e.ClientChoke? {
      ClientKeepsInv(s, e, garbage, first);
    } else {
      assert Next(s, e).said == s.said;
    }
  }

  lemma {:induction false} RunsKeepInv(s: System, steps: seq<Step>, t: System, garbage: bool, first: Frame)
    requires Inv(s, garbage, first) && CleanRun(s, steps, t)
    ensures Inv(t, garbage, first)
    decreases |steps|
  {
    if steps != [] {
      StepKeepsInv(s, steps[0], garbage, first);
      RunsKeepInv(Next(s, steps[0]), steps[1..], t, garbage, first);
    }
  }

  /** The peer that serves the request has been sent exactly the conversation the client had. */
  ghost predicate Transparent(s: System, first: Frame) {
    s.x.forward.Some? && s.x.buffering ==> s.x.forward.value.sent == [first] + s.said
  }

  lemma InitialInv(limit: nat, peer: nat, garbage: bool, headers: Headers, event: string, opens: bool, a: Attempt,
                   ok: bool)
    requires garbage ==> a.accepts >= 1
    ensures Inv(Initial(limit, peer, garbage, headers, event, opens, a, ok), garbage, Enqueue(headers, event))
  {
  }

  /** Exactly when a peer is not shown the client's own conversation: its stream was replayed
      with a choke that the client had not sent, and did not send right then either. */
  lemma {:induction false} TransparentIff(limit: nat, peer: nat, garbage: bool, headers: Headers, event: string,
      opens: bool, a: Attempt, ok: bool, steps: seq<Step>, s: System)
    requires garbage ==> a.accepts >= 1
    requires CleanRun(Initial(limit, peer, garbage, headers, event, opens, a, ok), steps, s)
    requires s.x.forward.Some? && s.x.buffering
    ensures s.early ==> garbage && s.mark <= |s.said|
    ensures Transparent(s, Enqueue(headers, event)) <==> !s.early || s.said == s.said[..s.mark] + [Choke("")]
  {
    var first := Enqueue(headers, event);
    InitialInv(limit, peer, garbage, headers, event, opens, a, ok);
    RunsKeepInv(Initial(limit, peer, garbage, headers, event, opens, a, ok), steps, s, garbage, first);
    assert ([first] + s.said)[1..] == s.said;
    if s.early {
      assert ([first] + (s.said[..s.mark] + [Choke("")]))[1..] == s.said[..s.mark] + [Choke("")];
    }
  }

  /** With the flag cleared, retries are transparent, however many there are. */
  lemma {:induction false} RetryTransparency(limit: nat, peer: nat, headers: Headers, event: string,
      opens: bool, a: Attempt, ok: bool, steps: seq<Step>, s: System)
    requires CleanRun(Initial(limit, peer, false, headers, event, opens, a, ok), steps, s)
    ensures Transparent(s, Enqueue(headers, event))
  {
    if s.x.forward.Some? && s.x.buffering {
      TransparentIff(limit, peer, false, headers, event, opens, a, ok, steps, s);
    }
  }

  /** The flag the original never clears: one recoverable error, and the next peer is told that
      the client has finished. */
  lemma GarbageExample()
    ensures exists steps: seq<Step>, s: System ::
      && CleanRun(Initial(1, 0, true, "", "ping", true, Attempt(None, false, 1), true), steps, s)
      && !Transparent(s, Enqueue("", "ping"))
  {
    var s0 := Initial(1, 0, true, "", "ping", true, Attempt(None, false, 1), true);
    var e := PeerError(0, "", 1, true, Attempt(Some(1), true, 9), true, true);
    var s := Next(s0, e);
    assert Replay(s0.x) == [Enqueue("", "ping"), Choke("")];
    assert CleanRun(s, [], s);
    assert CleanRun(s0, [e], s);
    assert s.x.forward.value.sent == [Enqueue("", "ping"), Choke("")];
    assert !Transparent(s, Enqueue("", "ping"));
  }
}
