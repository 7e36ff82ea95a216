/** What goes through the proxy, frame by frame, in every run: the client is sent what the peer
    said and the peer what the client said, and the proxy adds an error of its own exactly when
    it has a reason to. */
module ProxyContents {
  import opened ProxyRecipe
  import opened ProxySystem

  // ----- one direction

  /** What one side has been sent, and whether that has ended. */
  datatype Line = Line(frames: seq<Frame>, ended: bool)

  /** A line that is offered further frames: it takes them up to the first that ends it. */
  function Hear(l: Line, fs: seq<Frame>): Line
    decreases |fs|
  {
    if l.ended || fs == [] then l else Hear(Line(l.frames + [fs[0]], IsTerminal(fs[0])), fs[1..])
  }

  /** The frames up to and including the first that ends the stream. */
  function UpToEnd(fs: seq<Frame>): seq<Frame> {
    if fs == [] then [] else if IsTerminal(fs[0]) then [fs[0]] else [fs[0]] + UpToEnd(fs[1..])
  }

  predicate Ends(fs: seq<Frame>) {
    exists i :: 0 <= i < |fs| && IsTerminal(fs[i])
  }

  lemma EndsHead(fs: seq<Frame>)
    requires fs != []
    ensures Ends(fs) <==> IsTerminal(fs[0]) || Ends(fs[1..])
  {
    assert forall i :: 0 < i < |fs| ==> fs[1..][i - 1] == fs[i];
  }

  lemma {:induction false} HearIs(l: Line, fs: seq<Frame>)
    requires !l.ended
    ensures Hear(l, fs) == Line(l.frames + UpToEnd(fs), Ends(fs))
    decreases |fs|
  {
    if fs == [] {
      assert l.frames + [] == l.frames;
    } else {
      EndsHead(fs);
      if !IsTerminal(fs[0]) {
        HearIs(Line(l.frames + [fs[0]], false), fs[1..]);
        assert l.frames + [fs[0]] + UpToEnd(fs[1..]) == l.frames + ([fs[0]] + UpToEnd(fs[1..]));
      }
    }
  }

  lemma {:induction false} HearMore(l: Line, a: seq<Frame>, b: seq<Frame>)
    ensures Hear(l, a + b) == Hear(Hear(l, a), b)
    decreases |a|
  {
    if a == [] {
      assert a + b == b;
    } else if !l.ended {
      assert (a + b)[1..] == a[1..] + b;
      HearMore(Line(l.frames + [a[0]], IsTerminal(a[0])), a[1..], b);
    }
  }

  /** One frame, or none. */
  function Maybe(f: Frame, sent: bool): seq<Frame> {
    if sent then [f] else []
  }

  lemma HearMaybe(l: Line, f: Frame, sent: bool)
    ensures Hear(l, Maybe(f, sent)) == if sent && !l.ended then Line(l.frames + [f], IsTerminal(f)) else l
  {
    if sent && !l.ended {
      assert Hear(Line(l.frames + [f], IsTerminal(f)), []) == Line(l.frames + [f], IsTerminal(f));
    }
  }

  // ----- to the client

  function FramesOf(rs: seq<Reply>): seq<Frame> {
    if rs == [] then [] else FramesOf(rs[..|rs| - 1]) + [rs[|rs| - 1].frame]
  }

  function ClientLine(x: Proxy): Line {
    Line(FramesOf(x.backward.sent), x.backward.closed)
  }

  /** Another peer cannot be tried, or does not take the whole replay: one frame for the request,
      one for each chunk, and one for the choke. */
  predicate RetryIsHopeless(x: Proxy, a: Attempt) {
    || !x.buffering || x.retries >= x.retryLimit || a.chosen.None? || !a.opens
    || a.accepts < |x.chunks| + (if x.chokeSent then 1 else 0)
  }

  /** A frame for the peer is lost on the way. */
  predicate LosesFrame(x: Proxy, ok: bool) {
    x.forward.Some? && !x.forward.value.closed && !ok
  }

  /** What an event owes the client, if it can be sent: the peer's own frame, or the proxy's error. */
  function Owed(x: Proxy, e: Step): seq<Frame> {
    match e
    case ClientChunk(_, _, ok, okBack) => Maybe(Error("", SEND_FAILED), LosesFrame(x, ok) && okBack)
    case ClientChoke(_, ok, okBack) => Maybe(Error("", SEND_FAILED), LosesFrame(x, ok) && okBack)
    case ClientError(_, _, ok, okBack) => Maybe(Error("", SEND_FAILED), LosesFrame(x, ok) && okBack)
    case ClientGone(_) => []
    case PeerChunk(_, h, d, ok, _) => Maybe(Chunk(h, d), ok)
    case PeerChoke(_, h, ok, _) => Maybe(Choke(h), ok)
    case PeerGone(_, code, ok) => Maybe(Error("", code), ok)
    case PeerError(_, h, code, recoverable, a, ok, _) =>
      if recoverable then Maybe(Error("", RETRY_FAILED), RetryIsHopeless(x, a) && ok) else Maybe(Error(h, code), ok)
  }

  function OwedBy(s: System, steps: seq<Step>): seq<Frame>
    decreases |steps|
  {
    if steps == [] then [] else Owed(s.x, steps[0]) + OwedBy(Next(s, steps[0]), steps[1..])
  }

  lemma TellIsHeard(x: Proxy, source: nat, f: Frame, ok: bool)
    ensures ClientLine(TellClient(x, source, f, ok)) == Hear(ClientLine(x), Maybe(f, ok))
  {
    HearMaybe(ClientLine(x), f, ok);
    assert (x.backward.sent + [Reply(source, f)])[..|x.backward.sent|] == x.backward.sent;
  }

  lemma ForwardedOwes(x: Proxy, f: Frame, ok: bool, okBack: bool)
    ensures ClientLine(Forwarded(x, f, ok, okBack))
      == Hear(ClientLine(x), Maybe(Error("", SEND_FAILED), LosesFrame(x, ok) && okBack))
  {
    TellIsHeard(TellPeer(x, f, ok), 0, Error("", SEND_FAILED), okBack);
  }

  lemma AnsweredOwes(x: Proxy, source: nat, f: Frame, ok: bool, okForward: bool)
    ensures ClientLine(Answered(x, source, f, ok, okForward)) == Hear(ClientLine(x), Maybe(f, ok))
  {
    TellIsHeard(x, source, f, ok);
  }

  lemma RetryBackward(x: Proxy, a: Attempt)
    requires |x.chunkHeaders| == |x.chunks|
    ensures Retry(x, a).proxy.backward == x.backward
    ensures Retry(x, a).threw <==> RetryIsHopeless(x, a)
  {
    var x1 := x.(retries := x.retries + 1);
    if x1.buffering && x1.retries <= x1.retryLimit && a.chosen.Some? {
      ReplayLength(x1.(peer := a.chosen.value, used := x1.used + [a.chosen.value]));
    }
  }

  lemma ClientOwes(x: Proxy, e: Step)
    requires !FromPeer(e)
    ensures ClientLine(React(x, e)) == Hear(ClientLine(x), Owed(x, e))
  {
    if e.ClientGone? || x.forward.None? {
      return;
    }
    match e
    case ClientChunk(h, d, ok, okBack) =>
      ForwardedOwes(x.(chunks := x.chunks + [d], chunkHeaders := x.chunkHeaders + [h]), Chunk(h, d), ok, okBack);
    case ClientChoke(h, ok, okBack) =>
      ForwardedOwes(x.(chokeSent := true, chokeHeaders := h), Choke(h), ok, okBack);
    case ClientError(h, code, ok, okBack) => ForwardedOwes(x, Error(h, code), ok, okBack);
  }

  lemma ErrorOwes(x: Proxy, e: Step)
    requires |x.chunkHeaders| == |x.chunks| && e.PeerError?
    ensures ClientLine(React(x, e)) == Hear(ClientLine(x), Owed(x, e))
  {
    if e.recoverable {
      RetryBackward(x, e.attempt);
      TellIsHeard(Retry(x, e.attempt).proxy, e.source, Error("", RETRY_FAILED), e.ok);
    } else {
      AnsweredOwes(x, e.source, Error(e.headers, e.code), e.ok, e.okForward);
    }
  }

  lemma PeerOwes(x: Proxy, e: Step)
    requires FromPeer(e) && !e.PeerError?
    ensures ClientLine(React(x, e)) == Hear(ClientLine(x), Owed(x, e))
  {
    match e
    case PeerChunk(source, h, d, ok, okForward) =>
      AnsweredOwes(DisableBuffering(x), source, Chunk(h, d), ok, okForward);
    case PeerChoke(source, h, ok, okForward) => AnsweredOwes(x, source, Choke(h), ok, okForward);
    case PeerGone(source, code, ok) => TellIsHeard(x, source, Error("", code), ok);
  }

  lemma RetryPairs(x: Proxy, a: Attempt)
    requires |x.chunkHeaders| == |x.chunks|
    ensures |Retry(x, a).proxy.chunkHeaders| == |Retry(x, a).proxy.chunks|
  {
  }

  lemma ReactPairs(x: Proxy, e: Step)
    requires |x.chunkHeaders| == |x.chunks|
    ensures |React(x, e).chunkHeaders| == |React(x, e).chunks|
  {
    if e.PeerError? {
      if e.recoverable {
        RetryPairs(x, e.attempt);
      }
    }
  }

  lemma StepOwes(s: System, e: Step)
    requires |s.x.chunkHeaders| == |s.x.chunks|
    ensures ClientLine(Next(s, e).x) == Hear(ClientLine(s.x), Owed(s.x, e))
    ensures |Next(s, e).x.chunkHeaders| == |Next(s, e).x.chunks|
  {
    ReactPairs(s.x, e);
    if !FromPeer(e) {
      ClientOwes(s.x, e);
    } else if e.PeerError? {
      ErrorOwes(s.x, e);
    } else {
      PeerOwes(s.x, e);
    }
  }

  lemma {:induction false} RunOwes(s: System, steps: seq<Step>, t: System)
    requires |s.x.chunkHeaders| == |s.x.chunks| && Runs(s, steps, t)
    ensures ClientLine(t.x) == Hear(ClientLine(s.x), OwedBy(s, steps))
    decreases |steps|
  {
    if steps != [] {
      StepOwes(s, steps[0]);
      RunOwes(Next(s, steps[0]), steps[1..], t);
      HearMore(ClientLine(s.x), Owed(s.x, steps[0]), OwedBy(Next(s, steps[0]), steps[1..]));
    }
  }

  /** What the arrival of the request already owes the client: an error if neither the chosen peer
      nor another one can be reached. */
  function OwedAtFirst(limit: nat, garbage: bool, opens: bool, a: Attempt, ok: bool): seq<Frame> {
    Maybe(Error("", RETRY_FAILED),
          !opens && ok && (limit == 0 || a.chosen.None? || !a.opens || (garbage && a.accepts == 0)))
  }

  lemma StartOwes(limit: nat, peer: nat, garbage: bool, headers: Headers, event: string, opens: bool, a: Attempt,
                  ok: bool)
    ensures var x := Start(limit, peer, garbage, headers, event, opens, a, ok);
      && ClientLine(x) == Hear(Line([], false), OwedAtFirst(limit, garbage, opens, a, ok))
      && |x.chunkHeaders| == |x.chunks|
  {
    var x := Fresh(limit, peer, garbage).(enqueueHeaders := headers, enqueueFrame := event);
    RetryBackward(x, a);
    RetryPairs(x, a);
    TellIsHeard(Retry(x, a).proxy, 0, Error("", RETRY_FAILED), ok);
  }

  /** In every run the client has been sent, in order and up to the first end: every frame of the
      peer with its headers and contents, but for the errors a retry made good; an error for every
      retry that had no hope; and an error for every frame of its own that was lost. Its stream is
      closed exactly if one of these is an end. */
  lemma {:induction false} ClientHearsThePeer(limit: nat, peer: nat, garbage: bool, headers: Headers, event: string,
      opens: bool, a: Attempt, ok: bool, steps: seq<Step>, t: System)
    requires Runs(Initial(limit, peer, garbage, headers, event, opens, a, ok), steps, t)
    ensures var s := Initial(limit, peer, garbage, headers, event, opens, a, ok);
      var owed := OwedAtFirst(limit, garbage, opens, a, ok) + OwedBy(s, steps);
      FramesOf(t.x.backward.sent) == UpToEnd(owed) && (t.x.backward.closed <==> Ends(owed))
  {
    var s := Initial(limit, peer, garbage, headers, event, opens, a, ok);
    var first, more := OwedAtFirst(limit, garbage, opens, a, ok), OwedBy(s, steps);
    StartOwes(limit, peer, garbage, headers, event, opens, a, ok);
    RunOwes(s, steps, t);
    HearMore(Line([], false), first, more);
    HearIs(Line([], false), first + more);
    assert [] + UpToEnd(first + more) == UpToEnd(first + more);
  }

  // ----- to the peer

  function PeerLine(x: Proxy): Line
    requires x.forward.Some?
  {
    Line(x.forward.value.sent, x.forward.value.closed)
  }

  /** The client's stream is open and does not take the answer: the peer is told. */
  predicate LosesAnswer(x: Proxy, ok: bool, okForward: bool) {
    !x.backward.closed && !ok && okForward
  }

  /** What an event passes on to the current peer, if it can be sent. */
  function Passed(x: Proxy, e: Step): seq<Frame> {
    match e
    case ClientChunk(h, d, ok, _) => Maybe(Chunk(h, d), ok)
    case ClientChoke(h, ok, _) => Maybe(Choke(h), ok)
    case ClientError(h, code, ok, _) => Maybe(Error(h, code), ok)
    case ClientGone(ok) => Maybe(Error("", NOT_CONNECTED), ok)
    case PeerChunk(_, _, _, ok, okForward) => Maybe(Error("", NOT_CONNECTED), LosesAnswer(x, ok, okForward))
    case PeerChoke(_, _, ok, okForward) => Maybe(Error("", NOT_CONNECTED), LosesAnswer(x, ok, okForward))
    case PeerError(_, _, _, recoverable, _, ok, okForward) =>
      Maybe(Error("", NOT_CONNECTED), !recoverable && LosesAnswer(x, ok, okForward))
    case PeerGone(_, _, _) => []
  }

  function PassedBy(s: System, steps: seq<Step>): seq<Frame>
    decreases |steps|
  {
    if steps == [] then [] else Passed(s.x, steps[0]) + PassedBy(Next(s, steps[0]), steps[1..])
  }

  /** From `x` to `y` the peer has been offered `fs`. */
  predicate Passes(x: Proxy, y: Proxy, fs: seq<Frame>) {
    x.forward.Some? && y.forward.Some? && PeerLine(y) == Hear(PeerLine(x), fs)
  }

  lemma TellPeerPasses(x: Proxy, f: Frame, ok: bool)
    requires x.forward.Some?
    ensures Passes(x, TellPeer(x, f, ok), Maybe(f, ok))
  {
    HearMaybe(PeerLine(x), f, ok);
  }

  lemma ForwardedPasses(x: Proxy, f: Frame, ok: bool, okBack: bool)
    requires x.forward.Some?
    ensures Passes(x, Forwarded(x, f, ok, okBack), Maybe(f, ok))
  {
    TellPeerPasses(x, f, ok);
  }

  lemma AnsweredPasses(x: Proxy, source: nat, f: Frame, ok: bool, okForward: bool)
    requires x.forward.Some?
    ensures Passes(x, Answered(x, source, f, ok, okForward),
                   Maybe(Error("", NOT_CONNECTED), LosesAnswer(x, ok, okForward)))
  {
    TellPeerPasses(TellClient(x, source, f, ok), Error("", NOT_CONNECTED), okForward);
  }

  lemma ClientPasses(x: Proxy, e: Step)
    requires x.forward.Some? && !FromPeer(e)
    ensures Passes(x, React(x, e), Passed(x, e))
  {
    match e
    case ClientChunk(h, d, ok, okBack) =>
      ForwardedPasses(x.(chunks := x.chunks + [d], chunkHeaders := x.chunkHeaders + [h]), Chunk(h, d), ok, okBack);
    case ClientChoke(h, ok, okBack) =>
      ForwardedPasses(x.(chokeSent := true, chokeHeaders := h), Choke(h), ok, okBack);
    case ClientError(h, code, ok, okBack) => ForwardedPasses(x, Error(h, code), ok, okBack);
    case ClientGone(ok) => TellPeerPasses(x, Error("", NOT_CONNECTED), ok);
  }

  lemma ErrorPasses(x: Proxy, e: Step)
    requires x.forward.Some? && e.PeerError? && React(x, e).streams == x.streams
    ensures Passes(x, React(x, e), Passed(x, e))
  {
    if !e.recoverable {
      AnsweredPasses(x, e.source, Error(e.headers, e.code), e.ok, e.okForward);
    }
  }

  lemma PeerPasses(x: Proxy, e: Step)
    requires x.forward.Some? && FromPeer(e) && !e.PeerError?
    ensures Passes(x, React(x, e), Passed(x, e))
  {
    match e
    case PeerChunk(source, h, d, ok, okForward) =>
      AnsweredPasses(DisableBuffering(x), source, Chunk(h, d), ok, okForward);
    case PeerChoke(source, h, ok, okForward) => AnsweredPasses(x, source, Choke(h), ok, okForward);
    case PeerGone(_, _, _) =>
  }

  lemma StepPasses(s: System, e: Step)
    requires s.x.forward.Some? && Next(s, e).x.streams == s.x.streams
    ensures Passes(s.x, Next(s, e).x, Passed(s.x, e))
  {
    if !FromPeer(e) {
      ClientPasses(s.x, e);
    } else if e.PeerError? {
      ErrorPasses(s.x, e);
    } else {
      PeerPasses(s.x, e);
    }
  }

  lemma RetryGrows(x: Proxy, a: Attempt)
    ensures x.streams <= Retry(x, a).proxy.streams
  {
  }

  lemma OnlyErrorsRetry(x: Proxy, e: Step)
    requires !e.PeerError?
    ensures React(x, e).streams == x.streams
  {
  }

  lemma StreamsGrow(x: Proxy, e: Step)
    ensures x.streams <= React(x, e).streams
  {
    if e.PeerError? {
      RetryGrows(x, e.attempt);
    } else {
      OnlyErrorsRetry(x, e);
    }
  }

  lemma {:induction false} RunGrows(s: System, steps: seq<Step>, t: System)
    requires Runs(s, steps, t)
    ensures s.x.streams <= t.x.streams
    decreases |steps|
  {
    if steps != [] {
      StreamsGrow(s.x, steps[0]);
      RunGrows(Next(s, steps[0]), steps[1..], t);
    }
  }

  lemma {:induction false} RunPasses(s: System, steps: seq<Step>, t: System)
    requires Runs(s, steps, t) && t.x.streams == s.x.streams && s.x.forward.Some?
    ensures Passes(s.x, t.x, PassedBy(s, steps))
    decreases |steps|
  {
    if steps != [] {
      var u := Next(s, steps[0]);
      StreamsGrow(s.x, steps[0]);
      RunGrows(u, steps[1..], t);
      StepPasses(s, steps[0]);
      RunPasses(u, steps[1..], t);
      HearMore(PeerLine(s.x), Passed(s.x, steps[0]), PassedBy(u, steps[1..]));
    }
  }

  /** As long as no other stream is opened, whatever fails: the current peer is sent, after what it
      had already and up to the first end, every frame of the client that is not lost, with its
      headers and contents, and an error when the client is gone or cannot be reached. A peer
      whose stream was ended is sent nothing more. */
  lemma PeerHearsTheClient(s: System, steps: seq<Step>, t: System)
    requires Runs(s, steps, t) && t.x.streams == s.x.streams && s.x.forward.Some?
    ensures t.x.forward.Some?
    ensures s.x.forward.value.closed ==> t.x.forward == s.x.forward
    ensures !s.x.forward.value.closed ==>
      && t.x.forward.value.sent == s.x.forward.value.sent + UpToEnd(PassedBy(s, steps))
      && (t.x.forward.value.closed <==> Ends(PassedBy(s, steps)))
  {
    RunPasses(s, steps, t);
    if !s.x.forward.value.closed {
      HearIs(PeerLine(s.x), PassedBy(s, steps));
    }
  }

  // ----- what is kept for a retry

  /** What the proxy has to remember: the client's chunks since the last answer, whether there was
      an answer, and how many retries were asked for. */
  datatype Memory = Memory(kept: seq<Frame>, answered: bool, retries: nat)

  function Recall(m: Memory, e: Step): Memory {
    match e
    case ClientChunk(h, d, _, _) => m.(kept := m.kept + [Chunk(h, d)])
    case PeerChunk(_, _, _, _, _) => m.(kept := [], answered := true)
    case PeerError(_, _, _, recoverable, _, _, _) => if recoverable then m.(retries := m.retries + 1) else m
    case _ => m
  }

  function RecallAll(m: Memory, steps: seq<Step>): Memory
    decreases |steps|
  {
    if steps == [] then m else RecallAll(Recall(m, steps[0]), steps[1..])
  }

  /** The buffers hold what has to be remembered; the request itself is kept until the first
      answer, and the current peer is the one chosen last. */
  ghost predicate Remembers(x: Proxy, m: Memory, headers: Headers, event: string) {
    && x.forward.Some?
    && |x.chunkHeaders| == |x.chunks| && Zip(x.chunkHeaders, x.chunks) == m.kept
    && x.buffering == !m.answered && x.retries == m.retries
    && x.enqueueHeaders == (if m.answered then "" else headers)
    && x.enqueueFrame == (if m.answered then "" else event)
    && x.used != [] && x.peer == x.used[|x.used| - 1]
  }

  /** Telling somebody something changes nothing of what is remembered. */
  predicate SameMemory(x: Proxy, y: Proxy) {
    && x.forward.Some? == y.forward.Some?
    && x.chunkHeaders == y.chunkHeaders && x.chunks == y.chunks
    && x.buffering == y.buffering && x.retries == y.retries
    && x.enqueueHeaders == y.enqueueHeaders && x.enqueueFrame == y.enqueueFrame
    && x.used == y.used && x.peer == y.peer
  }

  lemma ForwardedKeepsMemory(x: Proxy, f: Frame, ok: bool, okBack: bool)
    ensures SameMemory(x, Forwarded(x, f, ok, okBack))
  {
  }

  lemma AnsweredKeepsMemory(x: Proxy, source: nat, f: Frame, ok: bool, okForward: bool)
    ensures SameMemory(x, Answered(x, source, f, ok, okForward))
  {
  }

  lemma RetryRemembers(x: Proxy, a: Attempt, m: Memory, headers: Headers, event: string)
    requires Remembers(x, m, headers, event)
    ensures Remembers(Retry(x, a).proxy, m.(retries := m.retries + 1), headers, event)
  {
  }

  lemma ClientIsRemembered(x: Proxy, e: Step, m: Memory, headers: Headers, event: string)
    requires Remembers(x, m, headers, event) && !FromPeer(e)
    ensures Remembers(React(x, e), Recall(m, e), headers, event)
  {
    match e
    case ClientChunk(h, d, ok, okBack) =>
      ZipSnoc(x.chunkHeaders, x.chunks, h, d);
      ForwardedKeepsMemory(x.(chunks := x.chunks + [d], chunkHeaders := x.chunkHeaders + [h]), Chunk(h, d), ok, okBack);
    case ClientChoke(h, ok, okBack) =>
      ForwardedKeepsMemory(x.(chokeSent := true, chokeHeaders := h), Choke(h), ok, okBack);
    case ClientError(h, code, ok, okBack) => ForwardedKeepsMemory(x, Error(h, code), ok, okBack);
    case ClientGone(_) =>
  }

  lemma ErrorIsRemembered(x: Proxy, e: Step, m: Memory, headers: Headers, event: string)
    requires Remembers(x, m, headers, event) && e.PeerError?
    ensures Remembers(React(x, e), Recall(m, e), headers, event)
  {
    if e.recoverable {
      RetryRemembers(x, e.attempt, m, headers, event);
    } else {
      AnsweredKeepsMemory(x, e.source, Error(e.headers, e.code), e.ok, e.okForward);
    }
  }

  lemma PeerIsRemembered(x: Proxy, e: Step, m: Memory, headers: Headers, event: string)
    requires Remembers(x, m, headers, event) && FromPeer(e) && !e.PeerError?
    ensures Remembers(React(x, e), Recall(m, e), headers, event)
  {
    match e
    case PeerChunk(source, h, d, ok, okForward) =>
      AnsweredKeepsMemory(DisableBuffering(x), source, Chunk(h, d), ok, okForward);
    case PeerChoke(source, h, ok, okForward) => AnsweredKeepsMemory(x, source, Choke(h), ok, okForward);
    case PeerGone(_, _, _) =>
  }

  lemma StepRemembers(s: System, e: Step, m: Memory, headers: Headers, event: string)
    requires Remembers(s.x, m, headers, event)
    ensures Remembers(Next(s, e).x, Recall(m, e), headers, event)
  {
    if !FromPeer(e) {
      ClientIsRemembered(s.x, e, m, headers, event);
    } else if e.PeerError? {
      ErrorIsRemembered(s.x, e, m, headers, event);
    } else {
      PeerIsRemembered(s.x, e, m, headers, event);
    }
  }

  lemma {:induction false} RunRemembers(s: System, steps: seq<Step>, t: System, m: Memory, headers: Headers,
                                        event: string)
    requires Remembers(s.x, m, headers, event) && Runs(s, steps, t)
    ensures Remembers(t.x, RecallAll(m, steps), headers, event)
    decreases |steps|
  {
    if steps != [] {
      StepRemembers(s, steps[0], m, headers, event);
      RunRemembers(Next(s, steps[0]), steps[1..], t, Recall(m, steps[0]), headers, event);
    }
  }

  /** In every run that reached a peer at all: the proxy buffers exactly until the first answer, and
      then forgets the request; it holds the client's chunks since the last answer with their
      headers, in order; it has counted every retry; and its peer is the one chosen last. */
  lemma {:induction false} BufferedUntilAnswered(limit: nat, peer: nat, garbage: bool, headers: Headers, event: string,
      opens: bool, a: Attempt, ok: bool, steps: seq<Step>, t: System)
    requires Runs(Initial(limit, peer, garbage, headers, event, opens, a, ok), steps, t)
    requires Initial(limit, peer, garbage, headers, event, opens, a, ok).x.forward.Some?
    ensures Remembers(t.x, RecallAll(Memory([], false, if opens then 0 else 1), steps), headers, event)
  {
    var s := Initial(limit, peer, garbage, headers, event, opens, a, ok);
    RunRemembers(s, steps, t, Memory([], false, if opens then 0 else 1), headers, event);
  }
}
