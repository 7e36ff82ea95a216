/** The increment action: read, add, write back under the version that was read. */
module IncrementRecipe {
  import opened Machine
  import opened Wrappers
  import opened Paths
  import opened Server

  predicate InRange64(n: int) {
    -TWO_63 <= n < TWO_63
  }

  predicate IsNumber(v: Value) {
    v.Int? || v.Double?
  }

  function ToReal(v: Value): real
    requires IsNumber(v)
  {
    if v.Int? then v.n as real else v.x
  }

  /** One floating operand makes the result floating. */
  function Add(a: Value, b: Value): (v: Value)
    requires IsNumber(a) && IsNumber(b)
    ensures IsNumber(v)
  {
    if a.Double? || b.Double? then Double(ToReal(a) + ToReal(b)) else Int(ToInt64(a.n + b.n))
  }

  /** `value` starts as the operand and becomes the sum; `told` is what the callback got. */
  datatype Increment = Increment(path: string, value: Value, closed: bool, told: Option<(Value, nat)>, failures: nat)

  datatype Reaction = Reaction(action: Increment, sent: seq<Request>)

  function Abort(a: Increment): Reaction {
    Reaction(a.(failures := if a.closed then a.failures else a.failures + 1, closed := true), [])
  }

  function Submit(a: Increment, r: Request, up: bool): Reaction {
    if up && ValidPath(r.path) then Reaction(a, [r]) else Abort(a)
  }

  function Satisfy(a: Increment, version: nat): Reaction {
    Reaction(if a.closed then a else a.(told := Some((a.value, version))), [])
  }

  function Run(path: string, operand: Value, up: bool): Reaction {
    var a := Increment(path, operand, false, None, 0);
    if IsNumber(operand) then Submit(a, Get(path, false), up) else Abort(a)
  }

  function OnGet(a: Increment, rc: Code, stored: Value, version: nat, hasChildren: bool, up: bool): Reaction {
    match rc
    case NoNode => Submit(a, Create(a.path, a.value, false, false), up)
    case Ok =>
      if hasChildren || !IsNumber(stored) || !IsNumber(a.value) then Abort(a)
      else
        var sum := Add(stored, a.value);
        Submit(a.(value := sum), Put(a.path, sum, version), up)
    case _ => Abort(a)
  }

  function OnMessage(a: Increment, m: Message, up: bool): Reaction {
    match m
    case GetReply(rc, stored, version, _, hasChildren) => OnGet(a, rc, stored, version, hasChildren, up)
    case PutReply(rc, version) => if rc.Ok? then Satisfy(a, version) else Abort(a)
    case CreateReply(rc, _) => if rc.Ok? then Satisfy(a, 0) else Abort(a)
    case _ => Reaction(a, [])
  }

  class IncrementAction {
    const path: string
    var value: Value
    var closed: bool
    var told: Option<(Value, nat)>
    var failures: nat
    var sent: seq<Request>

    function View(): Increment
      reads this
    {
      Increment(path, value, closed, told, failures)
    }

    twostate predicate Reacted(r: Reaction)
      reads this
    {
      View() == r.action && sent == old(sent) + r.sent
    }

    constructor (path: string, operand: Value)
      ensures View() == Increment(path, operand, false, None, 0) && sent == []
    {
      this.path := path;
      value, closed, told, failures, sent := operand, false, None, 0, [];
    }

    method AbortWithCurrentException()
      modifies this
      ensures Reacted(Abort(old(View())))
    {
      if !closed {
        failures := failures + 1;
      }
      closed := true;
    }

    method SubmitRequest(r: Request, up: bool)
      modifies this
      ensures Reacted(Submit(old(View()), r, up))
    {
      if up && ValidPath(r.path) {
        sent := sent + [r];
      } else {
        AbortWithCurrentException();
      }
    }

    method Start(up: bool)
      modifies this
      ensures old(View()) == Increment(path, old(value), false, None, 0) ==> Reacted(Run(path, old(value), up))
    {
      if IsNumber(value) {
        SubmitRequest(Get(path, false), up);
      } else {
        AbortWithCurrentException();
      }
    }

    method OnGetReply(rc: Code, stored: Value, version: nat, hasChildren: bool, up: bool)
      modifies this
      ensures Reacted(OnGet(old(View()), rc, stored, version, hasChildren, up))
    {
      if rc.NoNode? {
        SubmitRequest(Create(path, value, false, false), up);
      } else if !rc.Ok? || hasChildren || !IsNumber(stored) || !IsNumber(value) {
        AbortWithCurrentException();
      } else {
        if stored.Double? || value.Double? {
          value := Double(ToReal(stored) + ToReal(value));
        } else {
          value := Int(ToInt64(stored.n + value.n));
        }
        SubmitRequest(Put(path, value, version), up);
      }
    }

    method Handle(m: Message, up: bool)
      modifies this
      ensures Reacted(OnMessage(old(View()), m, up))
    {
      match m {
        case GetReply(rc, stored, version, _, hasChildren) =>
          OnGetReply(rc, stored, version, hasChildren, up);
        case PutReply(rc, version) =>
          if !rc.Ok? {
            AbortWithCurrentException();
          } else if !closed {
            told := Some((value, version));
          }
        case CreateReply(rc, _) =>
          if !rc.Ok? {
            AbortWithCurrentException();
          } else if !closed {
            told := Some((value, 0));
          }
        case ExistsReply(_) =>
        case ChildrenReply(_, _) =>
        case DeleteReply(_) =>
        case Event(_, _) =>
      }
    }
  }
}

/** Any number of increments of one node, interleaved in any way, with lost answers. */
module IncrementSystem {
  import opened Wrappers
  import opened Server
  import opened IncrementRecipe

  /** `operand` is what the caller asked to add. */
  datatype Client = Client(action: Increment, link: Link, operand: Value)

  /** One write that took effect, and whose it was. */
  datatype Write = Write(client: nat, operand: Value)

  /** `start` is the node before the run, `log` the writes since, in the order of versions. */
  datatype System = System(path: string, start: Option<Node>, tree: Tree, log: seq<Write>, clients: map<nat, Client>)

  datatype Step =
    | Begin(c: nat, operand: Value, up: bool)
    | ServeNext(c: nat, fate: Fate)
    | Deliver(c: nat, up: bool)
    | CloseScope(c: nat)
    | Elsewhere(tree: Tree)

  function NodeAt(t: Tree, path: string): Option<Node> {
    if path in t.nodes then Some(t.nodes[path]) else None
  }

  ghost predicate Initial(s: System) {
    s.clients == map[] && s.log == [] && s.start == NodeAt(s.tree, s.path)
  }

  ghost predicate Enabled(s: System, step: Step) {
    match step
    case Begin(c, _, _) => c !in s.clients
    case ServeNext(c, _) => c in s.clients && s.clients[c].link.out != []
    case Deliver(c, _) => c in s.clients && s.clients[c].link.inn != []
    case CloseScope(c) => c in s.clients
    case Elsewhere(tree) => NodeAt(tree, s.path) == NodeAt(s.tree, s.path)
  }

  function Handled(cl: Client, up: bool): Client
    requires cl.link.inn != []
  {
    var r := OnMessage(cl.action, cl.link.inn[0], up);
    cl.(action := r.action, link := cl.link.(inn := cl.link.inn[1..], out := cl.link.out + r.sent))
  }

  ghost function Next(s: System, step: Step): System
    requires Enabled(s, step)
  {
    match step
    case Begin(c, operand, up) =>
      var r := Run(s.path, operand, up);
      s.(clients := s.clients[c := Client(r.action, Link(r.sent, [], []), operand)])
    case ServeNext(c, fate) =>
      var cl := s.clients[c];
      var o := Serve(s.tree, cl.link.out[0], [], fate);
      System(s.path, s.start, o.tree,
             if o.change.Fired? then s.log + [Write(c, cl.operand)] else s.log,
             s.clients[c := cl.(link := Answer(cl.link, o))])
    case Deliver(c, up) => s.(clients := s.clients[c := Handled(s.clients[c], up)])
    case CloseScope(c) =>
      s.(clients := s.clients[c := s.clients[c].(action := s.clients[c].action.(closed := true))])
    case Elsewhere(tree) => s.(tree := tree)
  }

  ghost predicate Runs(s0: System, steps: seq<Step>, s: System)
    decreases |steps|
  {
    if steps == [] then s == s0
    else Enabled(s0, steps[0]) && Runs(Next(s0, steps[0]), steps[1..], s)
  }

  // ----- the history

  function StartValue(start: Option<Node>): Option<Value> {
    if start.Some? then Some(start.value.value) else None
  }

  /** The first `n` writes added up, on top of the starting value. */
  function Total(start: Option<Value>, log: seq<Write>): Option<Value> {
    if log == [] then start
    else
      var last, before := log[|log| - 1].operand, Total(start, log[..|log| - 1]);
      if before.None? || !IsNumber(before.value) || !IsNumber(last) then Some(last) else Some(Add(before.value, last))
  }

  /** The version of the node after `n` writes. */
  function VersionAfter(start: Option<Node>, n: nat): int {
    if start.Some? then start.value.version + n else n - 1
  }

  ghost predicate NodeMatchesLog(s: System) {
    match NodeAt(s.tree, s.path)
    case None => s.start.None? && s.log == []
    case Some(node) =>
      && node.version == VersionAfter(s.start, |s.log|)
      && Some(node.value) == Total(StartValue(s.start), s.log)
      && (s.log != [] ==> IsNumber(node.value))
  }

  /** `value` was the node's value at `version`, some time in the run. */
  ghost predicate Recorded(s: System, value: Value, version: int, n: nat) {
    n <= |s.log| && VersionAfter(s.start, n) == version && Total(StartValue(s.start), s.log[..n]) == Some(value)
  }

  /** The write that produced this version was client `c`'s. */
  ghost predicate WrittenBy(s: System, c: nat, value: Value, version: int) {
    exists n :: 0 < n <= |s.log| && s.log[n - 1].client == c && Recorded(s, value, version, n)
  }

  ghost predicate HasWritten(s: System, c: nat) {
    exists i :: 0 <= i < |s.log| && s.log[i].client == c
  }

  predicate Stage(cl: Client, out: nat, inn: nat) {
    |cl.link.out| == out && |cl.link.inn| == inn
  }

  /** Exactly one message is under way, and it fits what the client has done so far. */
  ghost predicate Tracks(s: System, c: nat, cl: Client) {
    var a, k := cl.action, cl.link;
    && a.path == s.path && k.watches == []
    && a.told.None?
    && (|| (Stage(cl, 0, 0) && a.closed)
        || (&& Stage(cl, 1, 0) && !HasWritten(s, c) && IsNumber(cl.operand)
            && match k.out[0] {
                 case Get(p, w) => p == s.path && !w && a.value == cl.operand
                 case Create(p, v, e, q) => p == s.path && v == a.value == cl.operand && !q
                 case Put(p, v, version) =>
                   && p == s.path && v == a.value && version >= 0
                   && exists n, stored ::
                        Recorded(s, stored, version, n) && IsNumber(stored) && v == Add(stored, cl.operand)
                 case _ => false
               })
        || (&& Stage(cl, 0, 1)
            && match k.inn[0] {
                 case GetReply(rc, v, version, _, _) =>
                   && !HasWritten(s, c) && IsNumber(cl.operand) && a.value == cl.operand
                   && (rc.Ok? ==> exists n :: Recorded(s, v, version, n))
                 case CreateReply(rc, _) => rc.Ok? ==> WrittenBy(s, c, a.value, 0)
                 case PutReply(rc, version) => rc.Ok? ==> WrittenBy(s, c, a.value, version)
                 case _ => false
               }))
  }

  ghost predicate Finished(s: System, c: nat, cl: Client) {
    && Stage(cl, 0, 0) && cl.action.told.Some? && cl.link.watches == []
    && WrittenBy(s, c, cl.action.told.value.0, cl.action.told.value.1)
  }

  ghost predicate Local(s: System, c: nat, cl: Client) {
    Tracks(s, c, cl) || Finished(s, c, cl)
  }

  ghost predicate OneWriteEach(s: System) {
    && (forall i, j :: 0 <= i < j < |s.log| ==> s.log[i].client != s.log[j].client)
    && (forall i :: 0 <= i < |s.log| ==>
          s.log[i].client in s.clients && s.log[i].operand == s.clients[s.log[i].client].operand)
  }

  /** Only numbers are ever added, and only to a number. */
  ghost predicate Numeric(s: System) {
    && (forall i :: 0 <= i < |s.log| ==> IsNumber(s.log[i].operand))
    && (s.log != [] && s.start.Some? ==> IsNumber(s.start.value.value))
  }

  ghost predicate Inv(s: System) {
    && NodeMatchesLog(s) && OneWriteEach(s) && Numeric(s)
    && forall c :: c in s.clients ==> Local(s, c, s.clients[c])
  }
}
