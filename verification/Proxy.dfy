/** The retrying stream proxy: what the client sends is buffered and replayed to another peer
    when the first one fails before answering. */
module ProxyRecipe {
  import opened Wrappers

  type Headers = string

  datatype Frame =
    | Enqueue(headers: Headers, event: string)
    | Chunk(headers: Headers, data: string)
    | Choke(headers: Headers)
    | Error(headers: Headers, code: int)

  predicate IsTerminal(f: Frame) {
    f.Choke? || f.Error?
  }

  /** A frame on its way to the client, with the stream it came from. */
  datatype Reply = Reply(source: nat, frame: Frame)

  /** A stream that stays silent once a terminal frame went through. */
  datatype Stream<T> = Stream(closed: bool, sent: seq<T>)

  /** `ok` tells whether the send goes through; where it does not, the original throws. */
  function Sent<T>(s: Stream<T>, x: T, terminal: bool, ok: bool): Stream<T> {
    if s.closed || !ok then s else Stream(terminal, s.sent + [x])
  }

  /** Whether sending on this stream throws. */
  predicate Throws<T>(s: Stream<T>, ok: bool) {
    !s.closed && !ok
  }

  /** How one attempt with another peer goes: the balancer's choice, whether the stream could
      be opened, and how many of the replayed frames are accepted. */
  datatype Attempt = Attempt(chosen: Option<nat>, opens: bool, accepts: nat)

  const RETRY_FAILED := -1
  const NOT_CONNECTED := -2
  const SEND_FAILED := -3

  datatype Proxy = Proxy(
    retryLimit: nat, retries: nat, used: seq<nat>, peer: nat, streams: nat,
    backward: Stream<Reply>, forward: Option<Stream<Frame>>,
    enqueueHeaders: Headers, enqueueFrame: string,
    chunkHeaders: seq<Headers>, chunks: seq<string>,
    chokeSent: bool, chokeHeaders: Headers, buffering: bool)

  function Zip(hs: seq<Headers>, cs: seq<string>): seq<Frame> {
    if hs == [] || cs == [] then [] else [Chunk(hs[0], cs[0])] + Zip(hs[1..], cs[1..])
  }

  /** Everything the client has said, as it has to appear on a fresh stream. */
  function Replay(x: Proxy): seq<Frame> {
    [Enqueue(x.enqueueHeaders, x.enqueueFrame)] + Zip(x.chunkHeaders, x.chunks)
    + (if x.chokeSent then [Choke(x.chokeHeaders)] else [])
  }

  /** What a stream holds after the enqueue and as much of the replay as it accepts. */
  function Replayed(x: Proxy, accepts: nat): Stream<Frame> {
    var all := Replay(x);
    var n := Min(accepts + 1, |all|);
    Stream(x.chokeSent && n == |all|, all[..n])
  }

  datatype Retried = Retried(proxy: Proxy, threw: bool)

  function Retry(x: Proxy, a: Attempt): Retried {
    var x1 := x.(retries := x.retries + 1);
    if !x1.buffering || x1.retries > x1.retryLimit || a.chosen.None? then Retried(x1, true)
    else
      var x2 := x1.(peer := a.chosen.value, used := x1.used + [a.chosen.value]);
      if !a.opens then Retried(x2, true)
      else
        Retried(x2.(forward := Some(Replayed(x2, a.accepts)), streams := x2.streams + 1),
                a.accepts + 1 < |Replay(x2)|)
  }

  function TellClient(x: Proxy, source: nat, f: Frame, ok: bool): Proxy {
    x.(backward := Sent(x.backward, Reply(source, f), IsTerminal(f), ok))
  }

  function TellPeer(x: Proxy, f: Frame, ok: bool): Proxy {
    if x.forward.None? then x
    else x.(forward := Some(Sent(x.forward.value, f, IsTerminal(f), ok)))
  }

  /** A new dispatch. The original leaves the choke flag uninitialised, so that its first value
      is whatever the memory held: here it is an input. */
  function Fresh(retryLimit: nat, peer: nat, chokeSent: bool): Proxy {
    Proxy(retryLimit, 0, [peer], peer, 0, Stream(false, []), None, "", "", [], [], chokeSent, "", true)
  }

  /** The request arrives; a stream is opened on the chosen peer, or on another one. */
  function Start(retryLimit: nat, peer: nat, chokeSent: bool, headers: Headers, event: string, opens: bool, a: Attempt,
                 ok: bool): Proxy {
    var x := Fresh(retryLimit, peer, chokeSent).(enqueueHeaders := headers, enqueueFrame := event);
    if opens then x.(forward := Some(Stream(false, [Enqueue(headers, event)])), streams := 1)
    else
      var r := Retry(x, a);
      if r.threw then TellClient(r.proxy, 0, Error("", RETRY_FAILED), ok) else r.proxy
  }

  // ----- the client speaks

  /** A frame for the peer that cannot be sent becomes an error for the client. */
  function Forwarded(x: Proxy, f: Frame, ok: bool, okBack: bool): Proxy {
    var x1 := TellPeer(x, f, ok);
    if x.forward.Some? && Throws(x.forward.value, ok) then TellClient(x1, 0, Error("", SEND_FAILED), okBack) else x1
  }

  function OnForwardChunk(x: Proxy, headers: Headers, data: string, ok: bool, okBack: bool): Proxy {
    if x.forward.None? then x
    else Forwarded(x.(chunks := x.chunks + [data], chunkHeaders := x.chunkHeaders + [headers]),
                   Chunk(headers, data), ok, okBack)
  }

  function OnForwardChoke(x: Proxy, headers: Headers, ok: bool, okBack: bool): Proxy {
    if x.forward.None? then x
    else Forwarded(x.(chokeSent := true, chokeHeaders := headers), Choke(headers), ok, okBack)
  }

  function OnForwardError(x: Proxy, headers: Headers, code: int, ok: bool, okBack: bool): Proxy {
    if x.forward.None? then x else Forwarded(x, Error(headers, code), ok, okBack)
  }

  function OnClientGone(x: Proxy, ok: bool): Proxy {
    TellPeer(x, Error("", NOT_CONNECTED), ok)
  }

  // ----- the peer speaks

  function DisableBuffering(x: Proxy): Proxy {
    x.(buffering := false, enqueueFrame := "", enqueueHeaders := "", chunkHeaders := [], chunks := [])
  }

  /** A frame for the client that cannot be sent means that the client is gone. */
  function Answered(x: Proxy, source: nat, f: Frame, ok: bool, okForward: bool): Proxy {
    var x1 := TellClient(x, source, f, ok);
    if Throws(x.backward, ok) then OnClientGone(x1, okForward) else x1
  }

  function OnBackwardChunk(x: Proxy, source: nat, headers: Headers, data: string, ok: bool, okForward: bool): Proxy {
    Answered(DisableBuffering(x), source, Chunk(headers, data), ok, okForward)
  }

  function OnBackwardError(x: Proxy, source: nat, headers: Headers, code: int, recoverable: bool, a: Attempt,
                           ok: bool, okForward: bool): Proxy {
    if recoverable then
      var r := Retry(x, a);
      if r.threw then TellClient(r.proxy, source, Error("", RETRY_FAILED), ok) else r.proxy
    else Answered(x, source, Error(headers, code), ok, okForward)
  }

  function OnBackwardChoke(x: Proxy, source: nat, headers: Headers, ok: bool, okForward: bool): Proxy {
    Answered(x, source, Choke(headers), ok, okForward)
  }

  function OnBackwardGone(x: Proxy, source: nat, code: int, ok: bool): Proxy {
    TellClient(x, source, Error("", code), ok)
  }

  // ----- the dispatch object

  lemma {:induction false} ZipSnoc(hs: seq<Headers>, cs: seq<string>, h: Headers, c: string)
    requires |hs| == |cs|
    ensures Zip(hs + [h], cs + [c]) == Zip(hs, cs) + [Chunk(h, c)] && |Zip(hs, cs)| == |cs|
  {
    if hs == [] {
      assert hs + [h] == [h] && cs + [c] == [c];
      assert Zip([h], [c]) == [Chunk(h, c)] + Zip([], []);
    } else {
      assert (hs + [h])[1..] == hs[1..] + [h] && (cs + [c])[1..] == cs[1..] + [c];
      ZipSnoc(hs[1..], cs[1..], h, c);
    }
  }

  lemma {:induction false} ZipAt(hs: seq<Headers>, cs: seq<string>, i: nat)
    requires |hs| == |cs|
    ensures |Zip(hs, cs)| == |cs| && (i < |cs| ==> Zip(hs, cs)[i] == Chunk(hs[i], cs[i]))
  {
    if hs != [] {
      ZipAt(hs[1..], cs[1..], if i > 0 then i - 1 else 0);
    }
  }

  lemma ReplayLength(x: Proxy)
    requires |x.chunkHeaders| == |x.chunks|
    ensures |Replay(x)| == 1 + |x.chunks| + (if x.chokeSent then 1 else 0)
    ensures Replay(x)[..1] == [Enqueue(x.enqueueHeaders, x.enqueueFrame)]
    ensures x.chokeSent ==> Replay(x) == Replay(x)[..1 + |x.chunks|] + [Choke(x.chokeHeaders)]
    ensures !x.chokeSent ==> Replay(x) == Replay(x)[..1 + |x.chunks|]
  {
    ZipAt(x.chunkHeaders, x.chunks, 0);
  }

  lemma ReplayAt(x: Proxy, i: nat)
    requires |x.chunkHeaders| == |x.chunks| && i < |x.chunks|
    ensures i + 2 <= |Replay(x)|
    ensures Replay(x)[..i + 2] == Replay(x)[..i + 1] + [Chunk(x.chunkHeaders[i], x.chunks[i])]
  {
    ZipAt(x.chunkHeaders, x.chunks, i);
  }

  /** How a replay ends after `i` chunks went through. */
  lemma ReplayEnds(x: Proxy, accepts: nat, i: nat)
    requires |x.chunkHeaders| == |x.chunks| && i == Min(|x.chunks|, accepts)
    ensures i + 1 <= |Replay(x)|
    ensures var stops := i < |x.chunks| || (x.chokeSent && i == accepts);
      && stops == (accepts + 1 < |Replay(x)|)
      && Replayed(x, accepts) == if stops || !x.chokeSent then Stream(false, Replay(x)[..i + 1])
                                 else Stream(true, Replay(x)[..i + 1] + [Choke(x.chokeHeaders)])
  {
    ReplayLength(x);
  }

  class VicodynDispatch {
    const retryLimit: nat
    var retries: nat
    var used: seq<nat>
    var peer: nat
    var streams: nat
    var backward: Stream<Reply>
    var forward: Option<Stream<Frame>>
    var enqueueHeaders: Headers
    var enqueueFrame: string
    var chunkHeaders: seq<Headers>
    var chunks: seq<string>
    var chokeSent: bool
    var chokeHeaders: Headers
    var buffering: bool

    function View(): Proxy
      reads this
    {
      Proxy(retryLimit, retries, used, peer, streams, backward, forward, enqueueHeaders, enqueueFrame,
            chunkHeaders, chunks, chokeSent, chokeHeaders, buffering)
    }

    /** The buffered chunks and their headers go together. */
    predicate Paired()
      reads this
    {
      |chunkHeaders| == |chunks|
    }

    constructor (retryLimit: nat, peer: nat, chokeSent: bool)
      ensures Paired()
      ensures View() == Fresh(retryLimit, peer, chokeSent)
    {
      this.retryLimit := retryLimit;
      retries, used, this.peer, streams := 0, [peer], peer, 0;
      backward, forward := Stream(false, []), None;
      enqueueHeaders, enqueueFrame, chunkHeaders, chunks := "", "", [], [];
      this.chokeSent, chokeHeaders, buffering := chokeSent, "", true;
    }

    /** Opens a stream on the chosen peer and replays the buffer into it, frame by frame, until
        the stream stops accepting. */
    method OpenAndReplay(accepts: nat) returns (threw: bool)
      requires Paired()
      modifies this`forward, this`streams
      ensures View() == old(View()).(forward := Some(Replayed(old(View()), accepts)), streams := old(streams) + 1)
      ensures threw == (accepts + 1 < |Replay(old(View()))|)
    {
      ghost var x := View();
      var sent := [Enqueue(enqueueHeaders, enqueueFrame)];
      ReplayLength(x);
      var i := 0;
      while i < |chunks| && i < accepts
        modifies {}
        invariant 0 <= i <= |chunks| && i <= accepts
        invariant sent == Replay(x)[..i + 1]
      {
        ReplayAt(x, i);
        sent := sent + [Chunk(chunkHeaders[i], chunks[i])];
        i := i + 1;
      }
      ReplayEnds(x, accepts, i);
      threw := i < |chunks|;
      var closed := false;
      if !threw && chokeSent {
        threw := i >= accepts;
        if !threw {
          sent := sent + [Choke(chokeHeaders)];
          closed := true;
        }
      }
      forward, streams := Some(Stream(closed, sent)), streams + 1;
    }

    method RetryUnsafe(a: Attempt) returns (threw: bool)
      requires Paired()
      modifies this
      ensures Paired()
      ensures View() == Retry(old(View()), a).proxy && threw == Retry(old(View()), a).threw
    {
      retries := retries + 1;
      if !buffering || retries > retryLimit || a.chosen.None? {
        return true;
      }
      peer := a.chosen.value;
      used := used + [peer];
      if !a.opens {
        return true;
      }
      threw := OpenAndReplay(a.accepts);
    }

    method SendBack(source: nat, f: Frame, ok: bool) returns (threw: bool)
      modifies this`backward
      ensures View() == TellClient(old(View()), source, f, ok) && threw == Throws(old(backward), ok)
    {
      threw := !backward.closed && !ok;
      if !backward.closed && ok {
        backward := Stream(IsTerminal(f), backward.sent + [Reply(source, f)]);
      }
    }

    method SendForward(f: Frame, ok: bool) returns (threw: bool)
      modifies this`forward
      ensures View() == TellPeer(old(View()), f, ok)
      ensures threw == (old(forward).Some? && Throws(old(forward).value, ok))
    {
      threw := forward.Some? && !forward.value.closed && !ok;
      if forward.Some? && !forward.value.closed && ok {
        forward := Some(Stream(IsTerminal(f), forward.value.sent + [f]));
      }
    }

    method EnqueueUnsafe(headers: Headers, event: string, opens: bool, a: Attempt, ok: bool)
      requires View() == Fresh(retryLimit, peer, chokeSent)
      modifies this
      ensures Paired() && View() == Start(retryLimit, old(peer), old(chokeSent), headers, event, opens, a, ok)
    {
      enqueueHeaders, enqueueFrame := headers, event;
      if opens {
        forward, streams := Some(Stream(false, [Enqueue(headers, event)])), 1;
      } else {
        var threw := RetryUnsafe(a);
        if threw {
          var _ := SendBack(0, Error("", RETRY_FAILED), ok);
        }
      }
    }

    method HandleForwardChunk(headers: Headers, data: string, ok: bool, okBack: bool)
      requires Paired()
      modifies this
      ensures Paired() && View() == OnForwardChunk(old(View()), headers, data, ok, okBack)
    {
      if forward.None? {
        return;
      }
      chunks := chunks + [data];
      chunkHeaders := chunkHeaders + [headers];
      var threw := SendForward(Chunk(headers, data), ok);
      if threw {
        var _ := SendBack(0, Error("", SEND_FAILED), okBack);
      }
    }

    method HandleForwardChoke(headers: Headers, ok: bool, okBack: bool)
      requires Paired()
      modifies this
      ensures Paired() && View() == OnForwardChoke(old(View()), headers, ok, okBack)
    {
      if forward.None? {
        return;
      }
      chokeSent, chokeHeaders := true, headers;
      var threw := SendForward(Choke(headers), ok);
      if threw {
        var _ := SendBack(0, Error("", SEND_FAILED), okBack);
      }
    }

    method HandleForwardError(headers: Headers, code: int, ok: bool, okBack: bool)
      requires Paired()
      modifies this
      ensures Paired() && View() == OnForwardError(old(View()), headers, code, ok, okBack)
    {
      if forward.None? {
        return;
      }
      var threw := SendForward(Error(headers, code), ok);
      if threw {
        var _ := SendBack(0, Error("", SEND_FAILED), okBack);
      }
    }

    method HandleClientGone(ok: bool)
      requires Paired()
      modifies this
      ensures Paired() && View() == OnClientGone(old(View()), ok)
    {
      var _ := SendForward(Error("", NOT_CONNECTED), ok);
    }

    method HandleBackwardGone(source: nat, code: int, ok: bool)
      requires Paired()
      modifies this
      ensures Paired() && View() == OnBackwardGone(old(View()), source, code, ok)
    {
      var _ := SendBack(source, Error("", code), ok);
    }

    method HandleBackwardChunk(source: nat, headers: Headers, data: string, ok: bool, okForward: bool)
      requires Paired()
      modifies this
      ensures Paired() && View() == OnBackwardChunk(old(View()), source, headers, data, ok, okForward)
    {
      buffering := false;
      enqueueFrame, enqueueHeaders := "", "";
      chunkHeaders, chunks := [], [];
      var threw := SendBack(source, Chunk(headers, data), ok);
      if threw {
        var _ := SendForward(Error("", NOT_CONNECTED), okForward);
      }
    }

    method HandleBackwardError(source: nat, headers: Headers, code: int, recoverable: bool, a: Attempt,
                               ok: bool, okForward: bool)
      requires Paired()
      modifies this
      ensures Paired() && View() == OnBackwardError(old(View()), source, headers, code, recoverable, a, ok, okForward)
    {
      if recoverable {
        var threw := RetryUnsafe(a);
        if threw {
          var _ := SendBack(source, Error("", RETRY_FAILED), ok);
        }
      } else {
        var threw := SendBack(source, Error(headers, code), ok);
        if threw {
          var _ := SendForward(Error("", NOT_CONNECTED), okForward);
        }
      }
    }

    method HandleBackwardChoke(source: nat, headers: Headers, ok: bool, okForward: bool)
      requires Paired()
      modifies this
      ensures Paired() && View() == OnBackwardChoke(old(View()), source, headers, ok, okForward)
    {
      var threw := SendBack(source, Choke(headers), ok);
      if threw {
        var _ := SendForward(Error("", NOT_CONNECTED), okForward);
      }
    }
  }
}
