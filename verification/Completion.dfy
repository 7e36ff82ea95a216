/** How a request on a worker ends: the client's half, the worker's half, and the channel that
    frees the worker's slot when both are over. */
module Completion {
  // ----- the client's half

  datatype Phase = Open | Bound | Closed

  /** `fired` lists the codes the completion callback was called with; 0 is success. */
  datatype Client = Client(phase: Phase, code: int, fired: seq<int>)

  /** `ok` tells whether the underlying stream takes the call instead of throwing. */
  datatype ClientEvent = Attach(ok: bool) | Discard(code: int) | Abort(ok: bool) | Close(ok: bool)

  function Finalize(c: Client): Client {
    match c.phase
    case Open => c.(phase := Closed)
    case Bound => c.(phase := Closed, fired := c.fired + [c.code])
    case Closed => c
  }

  function ClientStep(c: Client, e: ClientEvent): Client {
    match e
    case Attach(ok) =>
      if !ok || c.phase.Bound? then c
      else if c.phase.Open? then c.(phase := Bound)
      else c.(fired := c.fired + [c.code])
    case Discard(code) => if code == 0 then c else Finalize(c.(code := code))
    case Abort(ok) => if ok then Finalize(c) else c
    case Close(ok) => if ok then Finalize(c) else c
  }

  class ClientDispatch {
    var phase: Phase
    var code: int
    var fired: seq<int>

    function View(): Client
      reads this
    {
      Client(phase, code, fired)
    }

    constructor ()
      ensures View() == Client(Open, 0, [])
    {
      phase, code, fired := Open, 0, [];
    }

    method AttachStream(ok: bool)
      requires !phase.Bound?
      modifies this
      ensures View() == ClientStep(old(View()), Attach(ok))
    {
      if !ok {
        return;
      }
      match phase
      case Open => phase := Bound;
      case Closed => fired := fired + [code];
    }

    method FinalizeOnce()
      modifies this
      ensures View() == Finalize(old(View()))
    {
      match phase
      case Open => phase := Closed;
      case Bound =>
        phase := Closed;
        fired := fired + [code];
      case Closed =>
    }

    method DiscardWith(code: int)
      modifies this
      ensures View() == ClientStep(old(View()), Discard(code))
    {
      if code != 0 {
        this.code := code;
        FinalizeOnce();
      }
    }

    method AbortStream(ok: bool)
      modifies this
      ensures View() == ClientStep(old(View()), Abort(ok))
    {
      if ok {
        FinalizeOnce();
      }
    }

    method CloseStream(ok: bool)
      modifies this
      ensures View() == ClientStep(old(View()), Close(ok))
    {
      if ok {
        FinalizeOnce();
      }
    }
  }

  // ----- the worker's half

  datatype Out = OutChunk(data: string) | OutError(code: int) | OutChoke

  datatype Worker = Worker(closed: bool, forwarded: seq<Out>, fired: seq<int>)

  datatype WorkerEvent =
    | FromChunk(data: string, ok: bool)
    | FromError(code: int, ok: bool)
    | FromChoke(ok: bool)
    | Lost(code: int, ok: bool)

  const CONNECTION_ABORTED := 103

  function End(w: Worker, code: int): Worker {
    w.(closed := true, fired := w.fired + [code])
  }

  function Forward(w: Worker, f: Out): Worker {
    w.(forwarded := w.forwarded + [f])
  }

  function WorkerStep(w: Worker, e: WorkerEvent): Worker {
    if w.closed then w
    else
      match e
      case FromChunk(data, ok) => if ok then Forward(w, OutChunk(data)) else End(w, CONNECTION_ABORTED)
      case FromError(code, ok) => if ok then End(Forward(w, OutError(code)), 0) else End(w, CONNECTION_ABORTED)
      case FromChoke(ok) => if ok then End(Forward(w, OutChoke), 0) else End(w, CONNECTION_ABORTED)
      case Lost(code, ok) => if code == 0 then w else End(if ok then Forward(w, OutError(code)) else w, 0)
  }

  class WorkerDispatch {
    var closed: bool
    var forwarded: seq<Out>
    var fired: seq<int>

    function View(): Worker
      reads this
    {
      Worker(closed, forwarded, fired)
    }

    constructor ()
      ensures View() == Worker(false, [], [])
    {
      closed, forwarded, fired := false, [], [];
    }

    method FinalizeWith(code: int)
      modifies this`closed, this`fired
      ensures View() == if old(closed) then old(View()) else End(old(View()), code)
    {
      if !closed {
        closed := true;
        fired := fired + [code];
      }
    }

    method OnChunk(data: string, ok: bool)
      modifies this
      ensures View() == WorkerStep(old(View()), FromChunk(data, ok))
    {
      if closed {
        return;
      }
      if ok {
        forwarded := forwarded + [OutChunk(data)];
      } else {
        FinalizeWith(CONNECTION_ABORTED);
      }
    }

    method OnError(code: int, ok: bool)
      modifies this
      ensures View() == WorkerStep(old(View()), FromError(code, ok))
    {
      if closed {
        return;
      }
      if ok {
        forwarded := forwarded + [OutError(code)];
        FinalizeWith(0);
      } else {
        FinalizeWith(CONNECTION_ABORTED);
      }
    }

    method OnChoke(ok: bool)
      modifies this
      ensures View() == WorkerStep(old(View()), FromChoke(ok))
    {
      if closed {
        return;
      }
      if ok {
        forwarded := forwarded + [OutChoke];
        FinalizeWith(0);
      } else {
        FinalizeWith(CONNECTION_ABORTED);
      }
    }

    method DiscardWith(code: int, ok: bool)
      modifies this
      ensures View() == WorkerStep(old(View()), Lost(code, ok))
    {
      if code == 0 || closed {
        return;
      }
      if ok {
        forwarded := forwarded + [OutError(code)];
      }
      FinalizeWith(0);
    }
  }

  // ----- the channel

  const NONE: bv8 := 0x00
  const TX: bv8 := 0x01
  const RX: bv8 := 0x02
  const BOTH: bv8 := 0x03

  /** `notified` counts the calls of the callback. */
  datatype Channel = Channel(sides: bv8, watched: bool, notified: nat)

  datatype ChannelEvent = CloseSend | CloseRecv | CloseBoth | Watch

  function MaybeNotify(c: Channel): Channel {
    if c.sides == NONE && c.watched then c.(notified := c.notified + 1) else c
  }

  function Mask(e: ChannelEvent): bv8 {
    match e
    case CloseSend => TX
    case CloseRecv => RX
    case CloseBoth => TX | RX
    case Watch => NONE
  }

  function ChannelStep(c: Channel, e: ChannelEvent): Channel {
    MaybeNotify(c.(sides := c.sides & !Mask(e), watched := c.watched || e.Watch?))
  }

  class ChannelObject {
    var sides: bv8
    var watched: bool
    var notified: nat

    function View(): Channel
      reads this
    {
      Channel(sides, watched, notified)
    }

    constructor ()
      ensures View() == Channel(BOTH, false, 0)
    {
      sides, watched, notified := BOTH, false, 0;
    }

    method Notify()
      modifies this`notified
      ensures View() == MaybeNotify(old(View()))
    {
      if sides == NONE && watched {
        notified := notified + 1;
      }
    }

    method CloseSendSide()
      modifies this
      ensures View() == ChannelStep(old(View()), CloseSend)
    {
      sides := sides & !TX;
      Notify();
    }

    method CloseRecvSide()
      modifies this
      ensures View() == ChannelStep(old(View()), CloseRecv)
    {
      sides := sides & !RX;
      Notify();
    }

    method CloseBothSides()
      modifies this
      ensures View() == ChannelStep(old(View()), CloseBoth)
    {
      sides := sides & !(TX | RX);
      Notify();
    }

    method StartWatch()
      modifies this
      ensures View() == ChannelStep(old(View()), Watch)
    {
      watched := true;
      assert sides & !NONE == sides;
      Notify();
    }
  }
}

module CompletionTheorems {
  import opened Completion

  function Front<T>(s: seq<T>): seq<T>
    requires s != []
  {
    s[..|s| - 1]
  }

  function Last<T>(s: seq<T>): T
    requires s != []
  {
    s[|s| - 1]
  }

  // ----- the client's half: once, as soon as both are there

  function ClientRun(es: seq<ClientEvent>): Client {
    if es == [] then Client(Open, 0, []) else ClientStep(ClientRun(Front(es)), Last(es))
  }

  predicate IsAttach(e: ClientEvent) {
    e.Attach? && e.ok
  }

  predicate IsEnd(e: ClientEvent) {
    match e
    case Attach(_) => false
    case Discard(code) => code != 0
    case Abort(ok) => ok
    case Close(ok) => ok
  }

  predicate HasAttach(es: seq<ClientEvent>) {
    exists i :: 0 <= i < |es| && IsAttach(es[i])
  }

  predicate HasClientEnd(es: seq<ClientEvent>) {
    exists i :: 0 <= i < |es| && IsEnd(es[i])
  }

  /** A stream is attached once. */
  ghost predicate AttachedOnce(es: seq<ClientEvent>) {
    forall i, j :: 0 <= i < j < |es| ==> !(IsAttach(es[i]) && IsAttach(es[j]))
  }

  /** The last discard code, 0 when there was none. */
  function LastCode(es: seq<ClientEvent>): int {
    if es == [] then 0
    else if Last(es).Discard? && Last(es).code != 0 then Last(es).code
    else LastCode(Front(es))
  }

  lemma ClientSnoc(es: seq<ClientEvent>)
    requires es != []
    ensures HasAttach(es) <==> HasAttach(Front(es)) || IsAttach(Last(es))
    ensures HasClientEnd(es) <==> HasClientEnd(Front(es)) || IsEnd(Last(es))
    ensures AttachedOnce(es) ==> AttachedOnce(Front(es)) && !(HasAttach(Front(es)) && IsAttach(Last(es)))
  {
    assert forall i :: 0 <= i < |es| - 1 ==> Front(es)[i] == es[i];
  }

  lemma {:induction false} ClientState(es: seq<ClientEvent>)
    requires AttachedOnce(es)
    ensures var c := ClientRun(es);
      && c.phase == (if HasClientEnd(es) then Closed else if HasAttach(es) then Bound else Open)
      && |c.fired| == (if HasAttach(es) && HasClientEnd(es) then 1 else 0)
      && c.code == LastCode(es)
  {
    if es != [] {
      ClientSnoc(es);
      ClientState(Front(es));
    }
  }

  /** The callback fires exactly once, the moment both an attached stream and an end are there,
      whichever comes first, with the last error known at that moment. */
  lemma {:induction false} ClientFiresOnce(es: seq<ClientEvent>)
    requires AttachedOnce(es)
    ensures |ClientRun(es).fired| == if HasAttach(es) && HasClientEnd(es) then 1 else 0
    ensures es != [] && |ClientRun(es).fired| > |ClientRun(Front(es)).fired| ==> ClientRun(es).fired == [LastCode(es)]
  {
    ClientState(es);
    if es != [] {
      ClientSnoc(es);
      ClientState(Front(es));
    }
  }

  // ----- the worker's half: once, and nothing afterwards

  function WorkerRun(es: seq<WorkerEvent>): Worker {
    if es == [] then Worker(false, [], []) else WorkerStep(WorkerRun(Front(es)), Last(es))
  }

  predicate EndsWorker(e: WorkerEvent) {
    match e
    case FromChunk(_, ok) => !ok
    case FromError(_, _) => true
    case FromChoke(_) => true
    case Lost(code, _) => code != 0
  }

  predicate HasEnd(es: seq<WorkerEvent>) {
    exists i :: 0 <= i < |es| && EndsWorker(es[i])
  }

  lemma HasEndSnoc(es: seq<WorkerEvent>)
    requires es != []
    ensures HasEnd(es) <==> HasEnd(Front(es)) || EndsWorker(Last(es))
  {
    assert forall i :: 0 <= i < |es| - 1 ==> Front(es)[i] == es[i];
  }

  lemma HasEndCons(es: seq<WorkerEvent>)
    requires es != []
    ensures HasEnd(es) <==> EndsWorker(es[0]) || HasEnd(es[1..])
  {
    assert forall i :: 0 < i < |es| ==> es[1..][i - 1] == es[i];
  }

  function Frame(e: WorkerEvent): seq<Out> {
    match e
    case FromChunk(data, ok) => if ok then [OutChunk(data)] else []
    case FromError(code, ok) => if ok then [OutError(code)] else []
    case FromChoke(ok) => if ok then [OutChoke] else []
    case Lost(code, ok) => if code != 0 && ok then [OutError(code)] else []
  }

  function Frames(es: seq<WorkerEvent>): seq<Out> {
    if es == [] then [] else Frames(Front(es)) + Frame(Last(es))
  }

  /** The events up to and including the first that ends the stream. */
  function UpToEnd(es: seq<WorkerEvent>): seq<WorkerEvent> {
    if es == [] then []
    else if EndsWorker(es[0]) then [es[0]]
    else [es[0]] + UpToEnd(es[1..])
  }

  lemma {:induction false} NoEndKeepsAll(es: seq<WorkerEvent>)
    requires !HasEnd(es)
    ensures UpToEnd(es) == es
  {
    if es != [] {
      HasEndCons(es);
      NoEndKeepsAll(es[1..]);
    }
  }

  lemma {:induction false} UpToEndSnoc(es: seq<WorkerEvent>)
    requires es != []
    ensures UpToEnd(es) == if HasEnd(Front(es)) then UpToEnd(Front(es)) else es
  {
    if |es| > 1 {
      assert Front(es)[1..] == Front(es[1..]);
      UpToEndSnoc(es[1..]);
      HasEndCons(Front(es));
    }
  }

  /** A frame of the worker that the client's stream does not take. */
  predicate Unsent(e: WorkerEvent) {
    !e.Lost? && !e.ok
  }

  lemma OpenStep(w: Worker, e: WorkerEvent)
    requires !w.closed
    ensures var v := WorkerStep(w, e);
      && v.closed == EndsWorker(e) && v.forwarded == w.forwarded + Frame(e)
      && v.fired == w.fired + if EndsWorker(e) then [if Unsent(e) then CONNECTION_ABORTED else 0] else []
  {
  }

  lemma {:induction false} WorkerState(es: seq<WorkerEvent>)
    ensures var w := WorkerRun(es);
      && w.closed == HasEnd(es)
      && (HasEnd(es) ==> UpToEnd(es) != [])
      && w.fired == (if HasEnd(es) then [if Unsent(Last(UpToEnd(es))) then CONNECTION_ABORTED else 0] else [])
      && w.forwarded == Frames(UpToEnd(es))
  {
    if es != [] {
      WorkerState(Front(es));
      HasEndSnoc(es);
      UpToEndSnoc(es);
      if !HasEnd(Front(es)) {
        NoEndKeepsAll(Front(es));
        OpenStep(WorkerRun(Front(es)), Last(es));
      }
    }
  }

  /** The callback fires exactly once, at the first end, with success unless that end is a frame
      that could not be sent; the client has been sent the frames up to it and none after. */
  lemma WorkerFiresOnce(es: seq<WorkerEvent>)
    ensures HasEnd(es) ==> UpToEnd(es) != []
    ensures WorkerRun(es).fired ==
            if HasEnd(es) then [if Unsent(Last(UpToEnd(es))) then CONNECTION_ABORTED else 0] else []
    ensures WorkerRun(es).forwarded == Frames(UpToEnd(es))
  {
    WorkerState(es);
  }

  // ----- the channel

  /** What a channel has been told, the last event outermost. */
  datatype Trace = Nil | Snoc(front: Trace, last: ChannelEvent)

  function Length(es: Trace): nat {
    if es.Nil? then 0 else Length(es.front) + 1
  }

  function ChannelRun(es: Trace): Channel {
    if es.Nil? then Channel(BOTH, false, 0) else ChannelStep(ChannelRun(es.front), es.last)
  }

  predicate ClosesSend(e: ChannelEvent) {
    e.CloseSend? || e.CloseBoth?
  }

  predicate ClosesRecv(e: ChannelEvent) {
    e.CloseRecv? || e.CloseBoth?
  }

  predicate SendClosed(es: Trace) {
    es.Snoc? && (SendClosed(es.front) || ClosesSend(es.last))
  }

  predicate RecvClosed(es: Trace) {
    es.Snoc? && (RecvClosed(es.front) || ClosesRecv(es.last))
  }

  predicate Watched(es: Trace) {
    es.Snoc? && (Watched(es.front) || es.last.Watch?)
  }

  predicate Complete(es: Trace) {
    SendClosed(es) && RecvClosed(es) && Watched(es)
  }

  /** How many prefixes are complete. */
  function CompletePrefixes(es: Trace): nat {
    if es.Nil? then 0 else CompletePrefixes(es.front) + if Complete(es) then 1 else 0
  }

  function Sides(send: bool, recv: bool): bv8 {
    (if send then NONE else TX) | (if recv then NONE else RX)
  }

  /** The callback is called once for every event from the completing one on. */
  lemma {:induction false} ChannelCounts(es: Trace)
    ensures ChannelRun(es) == Channel(Sides(SendClosed(es), RecvClosed(es)), Watched(es), CompletePrefixes(es))
  {
    if es.Snoc? {
      ChannelCounts(es.front);
    }
  }

  lemma {:induction false} CompleteAtLeastOnce(es: Trace)
    ensures CompletePrefixes(es) > 0 <==> Complete(es)
  {
    if es.Snoc? {
      CompleteAtLeastOnce(es.front);
    }
  }

  /** Called exactly once, exactly when the last event is the one that completes the channel. */
  lemma {:induction false} ChannelOnceIff(es: Trace)
    requires es.Snoc?
    ensures ChannelRun(es).notified == 1 <==> Complete(es) && !Complete(es.front)
    ensures ChannelRun(es).notified > 0 <==> Complete(es)
  {
    ChannelCounts(es);
    CompleteAtLeastOnce(es);
    CompleteAtLeastOnce(es.front);
  }

  /** The event closes a side, or starts a watch, for the second time. */
  predicate Repeats(es: Trace, e: ChannelEvent) {
    (ClosesSend(e) && SendClosed(es)) || (ClosesRecv(e) && RecvClosed(es)) || (e.Watch? && Watched(es))
  }

  /** Each side is closed at most once, and the channel watched at most once. */
  predicate Once(es: Trace) {
    es.Nil? || (Once(es.front) && !Repeats(es.front, es.last))
  }

  lemma {:induction false} ClosedOnceNotifiesOnce(es: Trace)
    requires Once(es)
    ensures ChannelRun(es).notified == if Complete(es) then 1 else 0
  {
    if es.Snoc? {
      ChannelOnceIff(es);
    }
  }
}

/** One request on a worker: both dispatches wired to their channel. */
module RequestSystem {
  import opened Completion
  import opened CompletionTheorems

  /** `trace` lists what the channel was told. */
  datatype Request = Request(client: Client, worker: Worker, trace: Trace,
                             attached: bool, watched: bool, terminations: nat)

  datatype Event = ClientDoes(ce: ClientEvent) | WorkerDoes(we: WorkerEvent) | StartWatching | Terminate

  /** How often the channel's callback, which revokes it, was called. */
  function Revocations(r: Request): nat {
    ChannelRun(r.trace).notified
  }

  function Tell(r: Request, e: ChannelEvent): Request {
    r.(trace := Snoc(r.trace, e))
  }

  /** A callback with an error closes both sides of the channel. */
  function Closing(fired: seq<int>, side: ChannelEvent): ChannelEvent
    requires fired != []
  {
    if Last(fired) != 0 then CloseBoth else side
  }

  /** A callback that fires closes its side of the channel. */
  function ClientMoved(r: Request, c: Client, attached: bool): Request {
    var q := r.(client := c, attached := attached);
    if |c.fired| > |r.client.fired| then Tell(q, Closing(c.fired, CloseSend)) else q
  }

  function WorkerMoved(r: Request, w: Worker): Request {
    var q := r.(worker := w);
    if |w.fired| > |r.worker.fired| then Tell(q, Closing(w.fired, CloseRecv)) else q
  }

  function Next(r: Request, e: Event): Request {
    match e
    case ClientDoes(ce) => ClientMoved(r, ClientStep(r.client, ce), r.attached || IsAttach(ce))
    case WorkerDoes(we) => WorkerMoved(r, WorkerStep(r.worker, we))
    case StartWatching => Tell(r.(watched := true), Watch)
    case Terminate => Tell(r.(terminations := r.terminations + 1), CloseBoth)
  }

  /** The stream is attached once, and the channel watched once, after that. */
  predicate Enabled(r: Request, e: Event) {
    match e
    case ClientDoes(ce) => !(IsAttach(ce) && r.attached)
    case StartWatching => r.attached && !r.watched
    case _ => true
  }

  ghost predicate Runs(r: Request, es: seq<Event>, t: Request)
    decreases |es|
  {
    if es == [] then r == t else Enabled(r, es[0]) && Runs(Next(r, es[0]), es[1..], t)
  }

  const START := Request(Client(Open, 0, []), Worker(false, [], []), Nil, false, false, 0)

  predicate Failed(fired: seq<int>) {
    fired != [] && fired[0] != 0
  }

  predicate ClientInv(c: Client, attached: bool) {
    && |c.fired| <= 1
    && (c.fired != [] <==> c.phase.Closed? && attached)
    && (c.phase.Bound? ==> attached)
    && (c.phase.Open? ==> !attached)
  }

  predicate WorkerInv(w: Worker) {
    |w.fired| <= 1 && w.closed == (w.fired != [])
  }

  predicate Told(trace: Trace, client: seq<int>, worker: seq<int>, watched: bool, terminations: nat) {
    && (SendClosed(trace) <==> client != [] || Failed(worker) || terminations > 0)
    && (RecvClosed(trace) <==> worker != [] || Failed(client) || terminations > 0)
    && (Watched(trace) <==> watched)
    && (!Failed(client) && !Failed(worker) && terminations == 0 ==> Once(trace))
  }

  predicate Inv(r: Request) {
    && ClientInv(r.client, r.attached)
    && WorkerInv(r.worker)
    && Told(r.trace, r.client.fired, r.worker.fired, r.watched, r.terminations)
    && (r.watched ==> r.attached)
    && Length(r.trace) == |r.client.fired| + |r.worker.fired| + (if r.watched then 1 else 0) + r.terminations
  }

  lemma ClientFires(c: Client, attached: bool, ce: ClientEvent)
    requires ClientInv(c, attached) && !(IsAttach(ce) && attached)
    ensures var d := ClientStep(c, ce);
      ClientInv(d, attached || IsAttach(ce)) && (d.fired == c.fired || (c.fired == [] && |d.fired| == 1))
  {
  }

  lemma WorkerFires(w: Worker, we: WorkerEvent)
    requires WorkerInv(w)
    ensures var v := WorkerStep(w, we);
      WorkerInv(v) && (v.fired == w.fired || (w.fired == [] && |v.fired| == 1))
  {
  }

  lemma {:induction false} ClientTells(trace: Trace, fired: seq<int>, worker: seq<int>, watched: bool,
                                       n: nat)
    requires Told(trace, [], worker, watched, n) && |fired| == 1
    ensures Told(Snoc(trace, Closing(fired, CloseSend)), fired, worker, watched, n)
  {
  }

  lemma {:induction false} WorkerTells(trace: Trace, client: seq<int>, fired: seq<int>, watched: bool,
                                       n: nat)
    requires Told(trace, client, [], watched, n) && |fired| == 1
    ensures Told(Snoc(trace, Closing(fired, CloseRecv)), client, fired, watched, n)
  {
  }

  lemma {:induction false} ClientKeepsInv(r: Request, c: Client, attached: bool)
    requires Inv(r) && ClientInv(c, attached) && (r.attached ==> attached)
    requires c.fired == r.client.fired || (r.client.fired == [] && |c.fired| == 1)
    ensures Inv(ClientMoved(r, c, attached))
  {
    if c.fired != r.client.fired {
      ClientTells(r.trace, c.fired, r.worker.fired, r.watched, r.terminations);
    }
  }

  lemma {:induction false} WorkerKeepsInv(r: Request, w: Worker)
    requires Inv(r) && WorkerInv(w)
    requires w.fired == r.worker.fired || (r.worker.fired == [] && |w.fired| == 1)
    ensures Inv(WorkerMoved(r, w))
  {
    if w.fired != r.worker.fired {
      WorkerTells(r.trace, r.client.fired, w.fired, r.watched, r.terminations);
    }
  }

  lemma {:induction false} StepKeepsInv(r: Request, e: Event)
    requires Inv(r) && Enabled(r, e)
    ensures Inv(Next(r, e))
  {
    match e {
      case ClientDoes(ce) =>
        ClientFires(r.client, r.attached, ce);
        ClientKeepsInv(r, ClientStep(r.client, ce), r.attached || IsAttach(ce));
      case WorkerDoes(we) =>
        WorkerFires(r.worker, we);
        WorkerKeepsInv(r, WorkerStep(r.worker, we));
      case StartWatching =>
      case Terminate =>
    }
  }

  lemma {:induction false} RunsKeepInv(r: Request, es: seq<Event>, t: Request)
    requires Inv(r) && Runs(r, es, t)
    ensures Inv(t)
    decreases |es|
  {
    if es != [] {
      StepKeepsInv(r, es[0]);
      RunsKeepInv(Next(r, es[0]), es[1..], t);
    }
  }

  /** The channel is watched, and both halves are over, or one failed, or the worker shut down. */
  predicate Over(r: Request) {
    && r.watched
    && (|| (r.client.fired != [] && r.worker.fired != [])
        || Failed(r.client.fired) || Failed(r.worker.fired) || r.terminations > 0)
  }

  lemma {:induction false} OverIsRevoked(r: Request)
    requires Inv(r)
    ensures Revocations(r) > 0 <==> Over(r)
  {
    if r.trace.Snoc? {
      ChannelOnceIff(r.trace);
    }
  }

  /** In every run the channel has been revoked exactly when the request is over. */
  lemma {:induction false} RevokedExactlyWhen(es: seq<Event>, r: Request)
    requires Runs(START, es, r)
    ensures Revocations(r) > 0 <==> Over(r)
  {
    RunsKeepInv(START, es, r);
    OverIsRevoked(r);
  }

  lemma {:induction false} RevocationsGrow(r: Request, e: Event)
    ensures Revocations(r) <= Revocations(Next(r, e)) <= Revocations(r) + 1
  {
    var t := Next(r, e).trace;
    if t != r.trace {
      ChannelCounts(t);
      ChannelCounts(r.trace);
    }
  }

  /** Without a failure the callback is called once. */
  lemma {:induction false} RevokedOnce(es: seq<Event>, r: Request)
    requires Runs(START, es, r)
    requires !Failed(r.client.fired) && !Failed(r.worker.fired) && r.terminations == 0
    ensures Revocations(r) == if r.watched && r.client.fired != [] && r.worker.fired != [] then 1 else 0
  {
    RunsKeepInv(START, es, r);
    ClosedOnceNotifiesOnce(r.trace);
  }

  lemma OneIsIncomplete(e: ChannelEvent)
    ensures !Complete(Snoc(Nil, e)) && CompletePrefixes(Snoc(Nil, e)) == 0
  {
    assert !SendClosed(Nil) && !RecvClosed(Nil) && !Watched(Nil);
  }

  /** Two events complete a channel only if one is the watch and the other closes both sides. */
  lemma TwoComplete(a: ChannelEvent, b: ChannelEvent)
    ensures Complete(Snoc(Snoc(Nil, a), b)) <==> (a.Watch? && b.CloseBoth?) || (a.CloseBoth? && b.Watch?)
  {
    var es := Snoc(Nil, a);
    OneIsIncomplete(a);
    assert SendClosed(es) == ClosesSend(a) && RecvClosed(es) == ClosesRecv(a) && Watched(es) == a.Watch?;
  }

  lemma ThreeLong(es: Trace) returns (a: ChannelEvent, b: ChannelEvent, c: ChannelEvent)
    requires Length(es) == 3
    ensures es == Snoc(Snoc(Snoc(Nil, a), b), c)
  {
    c := es.last;
    assert Length(es.front) == 2;
    b := es.front.last;
    assert Length(es.front.front) == 1;
    a := es.front.front.last;
    assert Length(es.front.front.front) == 0;
  }

  lemma {:induction false} FirstNeverCompletes(es: Trace)
    requires es.Snoc?
    ensures CompletePrefixes(es) <= Length(es) - 1
  {
    if es.front.Snoc? {
      FirstNeverCompletes(es.front);
    } else {
      OneIsIncomplete(es.last);
    }
  }

  /** However the halves end, the callback is called at most twice, and once more for every
      termination. */
  lemma {:induction false} RevokedAtMostTwice(es: seq<Event>, r: Request)
    requires Runs(START, es, r)
    ensures Revocations(r) <= 2 + r.terminations
  {
    RunsKeepInv(START, es, r);
    ChannelCounts(r.trace);
    if r.trace.Snoc? {
      FirstNeverCompletes(r.trace);
    }
  }

  lemma CompletedByLast(r: Request, a: ChannelEvent, b: ChannelEvent, c: ChannelEvent)
    requires Inv(r) && Over(r) && r.trace == Snoc(Snoc(Snoc(Nil, a), b), c)
    ensures Revocations(r) == 1 <==> !Complete(Snoc(Snoc(Nil, a), b))
  {
    OverIsRevoked(r);
    ChannelOnceIff(r.trace);
  }

  /** Once both halves are over, the callback was called once unless the watch and a failed half
      both came before the end of the other half. */
  lemma {:induction false} RevokedOnceIff(es: seq<Event>, r: Request)
    requires Runs(START, es, r)
    requires r.watched && r.client.fired != [] && r.worker.fired != [] && r.terminations == 0
    ensures Length(r.trace) == 3
    ensures Revocations(r) == 1 <==>
              r.trace.front != Snoc(Snoc(Nil, Watch), CloseBoth) && r.trace.front != Snoc(Snoc(Nil, CloseBoth), Watch)
  {
    RunsKeepInv(START, es, r);
    var a, b, c := ThreeLong(r.trace);
    TwoComplete(a, b);
    CompletedByLast(r, a, b, c);
  }

  lemma TimeoutRevocations()
    ensures var a := Snoc(Nil, Watch);
      && ChannelRun(a).notified == 0 && ChannelRun(Snoc(a, CloseBoth)).notified == 1
      && ChannelRun(Snoc(Snoc(a, CloseBoth), CloseRecv)).notified == 2
  {
    var a := Snoc(Nil, Watch);
    ChannelCounts(a);
    ChannelCounts(Snoc(a, CloseBoth));
    ChannelCounts(Snoc(Snoc(a, CloseBoth), CloseRecv));
  }

  /** A request whose stream is attached and watched, and which then times out. */
  lemma TimeoutRequest(code: int) returns (a: Request, b: Request, c: Request, d: Request)
    requires code != 0
    ensures a == Next(START, ClientDoes(Attach(true))) && b == Next(a, StartWatching)
    ensures c == Next(b, ClientDoes(Discard(code))) && d == Next(c, WorkerDoes(Lost(code, true)))
    ensures a.attached && !a.watched && d.terminations == 0
    ensures Revocations(START) == Revocations(a) == Revocations(b) == 0
    ensures Revocations(c) == 1 && Revocations(d) == 2
  {
    a := Next(START, ClientDoes(Attach(true)));
    b := Next(a, StartWatching);
    c := Next(b, ClientDoes(Discard(code)));
    d := Next(c, WorkerDoes(Lost(code, true)));
    TimeoutRevocations();
  }

  lemma {:induction false} OneMore(r: Request, es: seq<Event>, t: Request, e: Event)
    requires Runs(r, es, t) && Enabled(t, e)
    ensures Runs(r, es + [e], Next(t, e))
    decreases |es|
  {
    var more := es + [e];
    if es == [] {
      assert more[0] == e && more[1..] == [];
      assert Runs(Next(t, e), [], Next(t, e));
    } else {
      assert more[0] == es[0] && more[1..] == es[1..] + [e];
      OneMore(Next(r, es[0]), es[1..], t, e);
    }
  }

  /** A timeout discards both halves, and calls the callback twice. */
  lemma TimeoutExample(code: int) returns (es: seq<Event>, r: Request)
    requires code != 0
    ensures Runs(START, es, r) && Revocations(r) == 2 && r.terminations == 0
  {
    var a, b, c, d := TimeoutRequest(code);
    OneMore(START, [], START, ClientDoes(Attach(true)));
    es := [] + [ClientDoes(Attach(true))];
    OneMore(START, es, a, StartWatching);
    es := es + [StartWatching];
    OneMore(START, es, b, ClientDoes(Discard(code)));
    es := es + [ClientDoes(Discard(code))];
    OneMore(START, es, c, WorkerDoes(Lost(code, true)));
    es := es + [WorkerDoes(Lost(code, true))];
    r := d;
  }
}

/** The worker with all its requests: the load is the number of its channels. */
module SlaveSystem {
  import opened Completion
  import opened CompletionTheorems
  import RequestSystem

  /** `handled` lists the calls of the engine's handler; `posted` are the channels a shutdown has
      yet to close. `registered` and `dropped` remember which channels were entered, and which of
      them a shutdown threw out. */
  datatype Slave = Slave(
    requests: map<nat, RequestSystem.Request>, counter: nat, channels: set<nat>, handled: seq<nat>,
    posted: set<nat>, registered: set<nat>, dropped: set<nat>)

  datatype Step =
    | Inject
    | Register(id: nat)
    | Does(id: nat, e: RequestSystem.Event)
    | Shutdown
    | RunPosted(id: nat)

  function Revoke(s: Slave, id: nat): Slave {
    s.(channels := s.channels - {id}, handled := s.handled + [id])
  }

  /** A request moves on, and its channel is revoked whenever it notifies. */
  function Progress(s: Slave, id: nat, e: RequestSystem.Event): Slave
    requires id in s.requests
  {
    var r := RequestSystem.Next(s.requests[id], e);
    Moved(s, id, r, RequestSystem.Revocations(r) > RequestSystem.Revocations(s.requests[id]))
  }

  function Moved(s: Slave, id: nat, r: RequestSystem.Request, revoked: bool): Slave {
    var t := s.(requests := s.requests[id := r]);
    if revoked then Revoke(t, id) else t
  }

  /** A channel is entered before its stream is attached, and closed by a shutdown only through
      its posted callback. */
  predicate Enabled(s: Slave, step: Step) {
    match step
    case Inject => true
    case Register(id) => id in s.requests && id !in s.registered
    case Does(id, e) =>
      && id in s.requests && !e.Terminate? && RequestSystem.Enabled(s.requests[id], e)
      && (e.ClientDoes? && IsAttach(e.ce) ==> id in s.registered)
    case Shutdown => true
    case RunPosted(id) => id in s.posted && id in s.requests
  }

  function Next(s: Slave, step: Step): Slave
    requires Enabled(s, step)
  {
    match step
    case Inject => s.(counter := s.counter + 1, requests := s.requests[s.counter + 1 := RequestSystem.START])
    case Register(id) => s.(channels := s.channels + {id}, registered := s.registered + {id})
    case Does(id, e) => Progress(s, id, e)
    case Shutdown => s.(posted := s.posted + s.channels, dropped := s.dropped + s.channels, channels := {})
    case RunPosted(id) => Progress(s.(posted := s.posted - {id}), id, RequestSystem.Terminate)
  }

  ghost predicate Runs(s: Slave, steps: seq<Step>, t: Slave)
    decreases |steps|
  {
    if steps == [] then s == t else Enabled(s, steps[0]) && Runs(Next(s, steps[0]), steps[1..], t)
  }

  const IDLE := Slave(map[], 0, {}, [], {}, {}, {})

  // ----- what holds the load

  /** The request's channel is entered, not thrown out, and not over. */
  predicate Busy(s: Slave, id: nat) {
    id in s.requests && id in s.registered && id !in s.dropped && !RequestSystem.Over(s.requests[id])
  }

  ghost predicate Local(s: Slave, id: nat)
    requires id in s.requests
  {
    var r := s.requests[id];
    && id <= s.counter && RequestSystem.Inv(r)
    && (r.attached ==> id in s.registered)
    && (r.terminations > 0 ==> id in s.dropped)
    && (id in s.channels <==> Busy(s, id))
  }

  ghost predicate Inv(s: Slave) {
    && s.posted <= s.dropped <= s.registered <= s.requests.Keys && s.channels <= s.registered
    && forall id :: id in s.requests ==> Local(s, id)
  }

  lemma MovedKeepsInv(s: Slave, id: nat, q: RequestSystem.Request, revoked: bool)
    requires Inv(s) && id in s.requests && RequestSystem.Inv(q)
    requires (q.attached ==> id in s.registered) && (q.terminations > 0 ==> id in s.dropped)
    requires if revoked then RequestSystem.Over(q) else RequestSystem.Over(q) == RequestSystem.Over(s.requests[id])
    ensures Inv(Moved(s, id, q, revoked))
    ensures Moved(s, id, q, revoked).channels == if RequestSystem.Over(q) then s.channels - {id} else s.channels
  {
    assert Local(s, id);
    var t := Moved(s, id, q, revoked);
    forall k | k in s.requests && k != id
      ensures Local(t, k)
    {
      assert Local(s, k);
    }
  }

  /** Where a request gets to, and whether that revokes its channel. */
  lemma {:induction false} RequestMoves(r: RequestSystem.Request, e: RequestSystem.Event)
    requires RequestSystem.Inv(r) && RequestSystem.Enabled(r, e)
    ensures var q := RequestSystem.Next(r, e);
      && RequestSystem.Inv(q)
      && (q.attached ==> r.attached || (e.ClientDoes? && IsAttach(e.ce)))
      && (q.terminations > 0 ==> r.terminations > 0 || e.Terminate?)
      && (if RequestSystem.Revocations(q) > RequestSystem.Revocations(r) then RequestSystem.Over(q)
          else RequestSystem.Over(q) == RequestSystem.Over(r))
  {
    RequestSystem.StepKeepsInv(r, e);
    RequestSystem.RevocationsGrow(r, e);
    RequestSystem.OverIsRevoked(r);
    RequestSystem.OverIsRevoked(RequestSystem.Next(r, e));
  }

  lemma {:induction false} ProgressKeepsInv(s: Slave, id: nat, e: RequestSystem.Event)
    requires Inv(s) && id in s.requests && RequestSystem.Enabled(s.requests[id], e)
    requires e.ClientDoes? && IsAttach(e.ce) ==> id in s.registered
    requires e.Terminate? ==> id in s.dropped
    ensures var t := Progress(s, id, e);
      Inv(t) && t.channels == if RequestSystem.Over(t.requests[id]) then s.channels - {id} else s.channels
  {
    var r := s.requests[id];
    var q := RequestSystem.Next(r, e);
    assert Local(s, id);
    RequestMoves(r, e);
    MovedKeepsInv(s, id, q, RequestSystem.Revocations(q) > RequestSystem.Revocations(r));
  }

  lemma {:induction false} StepKeepsInv(s: Slave, step: Step)
    requires Inv(s) && Enabled(s, step)
    ensures Inv(Next(s, step))
  {
    match step {
      case Does(id, e) => ProgressKeepsInv(s, id, e);
      case RunPosted(id) => ProgressKeepsInv(s.(posted := s.posted - {id}), id, RequestSystem.Terminate);
      case _ =>
        var t := Next(s, step);
        forall k | k in s.requests
          ensures Local(t, k)
        {
          assert Local(s, k);
        }
    }
  }

  lemma {:induction false} RunsKeepInv(s: Slave, steps: seq<Step>, t: Slave)
    requires Inv(s) && Runs(s, steps, t)
    ensures Inv(t)
    decreases |steps|
  {
    if steps != [] {
      StepKeepsInv(s, steps[0]);
      RunsKeepInv(Next(s, steps[0]), steps[1..], t);
    }
  }

  // ----- the worker object

  /** The worker, which updates its tables in place. `registered` and `dropped` are only
      remembered for the proofs. */
  class SlaveMachine {
    var requests: map<nat, RequestSystem.Request>
    var counter: nat
    var channels: set<nat>
    var handled: seq<nat>
    var posted: set<nat>
    ghost var registered: set<nat>
    ghost var dropped: set<nat>

    ghost function View(): Slave
      reads this
    {
      Slave(requests, counter, channels, handled, posted, registered, dropped)
    }

    ghost predicate Valid()
      reads this
    {
      Inv(View())
    }

    constructor ()
      ensures Valid() && View() == IDLE
    {
      requests, counter, channels, handled, posted := map[], 0, {}, [], {};
      registered, dropped := {}, {};
    }

    method Load() returns (load: nat)
      requires Valid()
      ensures load == |set id | id in requests && Busy(View(), id)|
    {
      LoadOfValid(View());
      load := |channels|;
    }

    /** A new request gets the next number, and no slot yet. */
    method NewRequest() returns (id: nat)
      requires Valid()
      modifies this
      ensures Valid() && View() == Next(old(View()), Inject)
      ensures id !in old(requests) && id in requests && id !in channels
    {
      StepKeepsInv(View(), Inject);
      FreshNumber(View());
      counter := counter + 1;
      id := counter;
      requests := requests[id := RequestSystem.START];
    }

    method RegisterChannel(id: nat) returns (load: nat)
      requires Valid() && Enabled(View(), Register(id))
      modifies this
      ensures Valid() && View() == Next(old(View()), Register(id))
      ensures load == |channels| == old(|channels|) + 1
    {
      StepKeepsInv(View(), Register(id));
      assert Local(View(), id);
      channels := channels + {id};
      registered := registered + {id};
      load := |channels|;
    }

    method RevokeChannel(id: nat) returns (load: nat)
      modifies this`channels, this`handled
      ensures View() == Revoke(old(View()), id)
      ensures load == |channels| == old(|channels|) - if id in old(channels) then 1 else 0
    {
      MinusOne(channels, id);
      channels := channels - {id};
      load := |channels|;
      handled := handled + [id];
    }

    method MoveRequest(id: nat, e: RequestSystem.Event)
      requires id in requests
      modifies this`requests, this`channels, this`handled
      ensures View() == Progress(old(View()), id, e)
    {
      var before := RequestSystem.Revocations(requests[id]);
      requests := requests[id := RequestSystem.Next(requests[id], e)];
      if RequestSystem.Revocations(requests[id]) > before {
        var load := RevokeChannel(id);
      }
    }

    /** The client, the worker or the injecting thread moves a request on. */
    method Handle(id: nat, e: RequestSystem.Event)
      requires Valid() && Enabled(View(), Does(id, e))
      modifies this
      ensures Valid() && View() == Next(old(View()), Does(id, e))
      ensures channels == if RequestSystem.Over(requests[id]) then old(channels) - {id} else old(channels)
    {
      ProgressKeepsInv(View(), id, e);
      MoveRequest(id, e);
    }

    /** Every channel is dropped from the table, and its closing posted to the loop. */
    method ShutDown()
      requires Valid()
      modifies this
      ensures Valid() && View() == Next(old(View()), Shutdown)
      ensures forall id :: id in requests ==> !Busy(View(), id)
    {
      StepKeepsInv(View(), Shutdown);
      NobodyBusy(Next(View(), Shutdown));
      posted := posted + channels;
      dropped := dropped + channels;
      channels := {};
    }

    method RunPostedClose(id: nat)
      requires Valid() && Enabled(View(), RunPosted(id))
      modifies this
      ensures Valid() && View() == Next(old(View()), RunPosted(id)) && channels == old(channels)
    {
      StepKeepsInv(View(), RunPosted(id));
      PostedIsDropped(View(), id);
      posted := posted - {id};
      MoveRequest(id, RequestSystem.Terminate);
    }
  }

  lemma LoadOfValid(s: Slave)
    requires Inv(s)
    ensures s.channels == set id | id in s.requests && Busy(s, id)
  {
    forall id
      ensures id in s.channels <==> id in s.requests && Busy(s, id)
    {
      if id in s.requests {
        assert Local(s, id);
      }
    }
  }

  lemma FreshNumber(s: Slave)
    requires Inv(s)
    ensures s.counter + 1 !in s.requests && s.counter + 1 !in s.channels
  {
    forall id | id in s.requests
      ensures id <= s.counter
    {
      assert Local(s, id);
    }
  }

  lemma NobodyBusy(s: Slave)
    requires Inv(s) && s.channels == {}
    ensures forall id :: id in s.requests ==> !Busy(s, id)
  {
    forall id | id in s.requests
      ensures !Busy(s, id)
    {
      assert Local(s, id);
    }
  }

  /** What a shutdown has yet to close holds no slot any more. */
  lemma PostedIsDropped(s: Slave, id: nat)
    requires Inv(s) && id in s.posted && id in s.requests
    ensures id !in s.channels && s.channels - {id} == s.channels
  {
    assert Local(s, id);
  }

  // ----- the guarantees

  /** In every run the load is the number of requests that were entered, are not over, and were
      not thrown out by a shutdown: a slot is released exactly when its request is over. */
  lemma {:induction false} LoadIsTheBusyRequests(steps: seq<Step>, s: Slave)
    requires Runs(IDLE, steps, s)
    ensures s.channels == set id | id in s.requests && Busy(s, id)
  {
    RunsKeepInv(IDLE, steps, s);
    LoadOfValid(s);
  }

  /** What a shutdown threw out is going to be closed, or has been. */
  ghost predicate Reached(s: Slave) {
    forall id :: id in s.dropped ==> id in s.requests && (id in s.posted || s.requests[id].terminations > 0)
  }

  lemma TerminationsStay(r: RequestSystem.Request, e: RequestSystem.Event)
    ensures RequestSystem.Next(r, e).terminations == r.terminations + if e.Terminate? then 1 else 0
  {
  }

  lemma {:induction false} StepKeepsReached(s: Slave, step: Step)
    requires Inv(s) && Reached(s) && Enabled(s, step)
    ensures Reached(Next(s, step))
  {
    match step
    case Does(id, e) => TerminationsStay(s.requests[id], e);
    case RunPosted(id) => TerminationsStay(s.requests[id], RequestSystem.Terminate);
    case _ => assert forall id :: id in s.requests ==> Local(s, id);
  }

  lemma {:induction false} RunsKeepReached(s: Slave, steps: seq<Step>, t: Slave)
    requires Inv(s) && Reached(s) && Runs(s, steps, t)
    ensures Inv(t) && Reached(t)
    decreases |steps|
  {
    if steps != [] {
      StepKeepsInv(s, steps[0]);
      StepKeepsReached(s, steps[0]);
      RunsKeepReached(Next(s, steps[0]), steps[1..], t);
    }
  }

  /** In every run: each channel that a shutdown threw out has both its sides closed by it, or is
      still waiting to be; once nothing is waiting, every one whose request was watched has been
      revoked. */
  lemma {:induction false} ShutdownClosesAll(steps: seq<Step>, s: Slave, id: nat)
    requires Runs(IDLE, steps, s) && id in s.dropped
    ensures id in s.requests && (id in s.posted || s.requests[id].terminations > 0)
    ensures id !in s.posted && s.requests[id].watched ==> RequestSystem.Revocations(s.requests[id]) > 0
  {
    RunsKeepReached(IDLE, steps, s);
    assert Local(s, id);
    RequestSystem.OverIsRevoked(s.requests[id]);
  }

  /** One event of one request lowers the load by one if it ends that request and the slot was
      still held, and leaves it alone otherwise, however often the channel is revoked. */
  lemma {:induction false} SlotReleasedOnce(steps: seq<Step>, s: Slave, id: nat, e: RequestSystem.Event)
    requires Runs(IDLE, steps, s) && Enabled(s, Does(id, e))
    ensures var t := Next(s, Does(id, e));
      |t.channels| == |s.channels| - if id in s.channels && RequestSystem.Over(t.requests[id]) then 1 else 0
  {
    RunsKeepInv(IDLE, steps, s);
    ProgressKeepsInv(s, id, e);
    MinusOne(s.channels, id);
  }

  lemma MinusOne(ids: set<nat>, id: nat)
    ensures |ids - {id}| == |ids| - if id in ids then 1 else 0
  {
    if id !in ids {
      assert ids - {id} == ids;
    }
  }

  /** A released slot is never held again. */
  lemma {:induction false} ReleasedForGood(s: Slave, steps: seq<Step>, t: Slave, id: nat)
    requires Inv(s) && Runs(s, steps, t) && id in s.registered && id !in s.channels
    ensures id !in t.channels
    decreases |steps|
  {
    if steps != [] {
      StepKeepsInv(s, steps[0]);
      ReleasedForGood(Next(s, steps[0]), steps[1..], t, id);
    }
  }

  /** The worker while its only request is at `r`. */
  function Serving(r: RequestSystem.Request, channels: set<nat>, handled: seq<nat>): Slave {
    Slave(map[1 := r], 1, channels, handled, {}, {1}, {})
  }

  lemma {:induction false} OneMore(s: Slave, steps: seq<Step>, t: Slave, step: Step)
    requires Runs(s, steps, t) && Enabled(t, step)
    ensures Runs(s, steps + [step], Next(t, step))
    decreases |steps|
  {
    var more := steps + [step];
    if steps == [] {
      assert more[0] == step && more[1..] == [];
      assert Runs(Next(t, step), [], Next(t, step));
    } else {
      assert more[0] == steps[0] && more[1..] == steps[1..] + [step];
      OneMore(Next(s, steps[0]), steps[1..], t, step);
    }
  }

  lemma ServingIsReached() returns (steps: seq<Step>)
    ensures Runs(IDLE, steps, Serving(RequestSystem.START, {1}, []))
  {
    var s := Next(IDLE, Inject);
    assert Runs(IDLE, [], IDLE);
    OneMore(IDLE, [], IDLE, Inject);
    OneMore(IDLE, [] + [Inject], s, Register(1));
    steps := [] + [Inject] + [Register(1)];
    assert Next(s, Register(1)) == Serving(RequestSystem.START, {1}, []);
  }

  /** A timeout calls the engine's handler twice for one request, and releases its slot once. */
  lemma TimeoutHandledTwice(code: int) returns (steps: seq<Step>, s: Slave)
    requires code != 0
    ensures Runs(IDLE, steps, s) && s.handled == [1, 1] && s.registered == {1} && s.channels == {}
  {
    var a, b, c, d := RequestSystem.TimeoutRequest(code);
    steps := ServingIsReached();
    var attach, watch := RequestSystem.ClientDoes(Attach(true)), RequestSystem.StartWatching;
    var discard, lost := RequestSystem.ClientDoes(Discard(code)), RequestSystem.WorkerDoes(Lost(code, true));
    steps := ServingMoves(steps, RequestSystem.START, a, attach, {1}, []);
    steps := ServingMoves(steps, a, b, watch, {1}, []);
    steps := ServingMoves(steps, b, c, discard, {1}, []);
    steps := ServingMoves(steps, c, d, lost, {}, [] + [1]);
    s := Serving(d, {}, [] + [1] + [1]);
  }

  lemma ServingMoves(steps: seq<Step>, r: RequestSystem.Request, q: RequestSystem.Request, e: RequestSystem.Event,
                     channels: set<nat>, handled: seq<nat>) returns (more: seq<Step>)
    requires Runs(IDLE, steps, Serving(r, channels, handled)) && channels <= {1}
    requires RequestSystem.Enabled(r, e) && !e.Terminate? && q == RequestSystem.Next(r, e)
    ensures var revoked := RequestSystem.Revocations(q) > RequestSystem.Revocations(r);
      Runs(IDLE, more, Serving(q, if revoked then {} else channels, if revoked then handled + [1] else handled))
  {
    OneMore(IDLE, steps, Serving(r, channels, handled), Does(1, e));
    more := steps + [Does(1, e)];
    assert channels - {1} == {};
    assert map[1 := r][1 := q] == map[1 := q];
  }
}
