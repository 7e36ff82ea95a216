/** The subscription action: an initial look with a watch, then a re-read after every event. */
module SubscribeRecipe {
  import opened Paths
  import opened Server

  /** What the callback is given. The epoch is not shown to the user; it tells a node from
      its re-creation. */
  datatype Update = Missing | Present(value: Value, version: nat, epoch: nat)

  datatype Subscription = Subscription(path: string, closed: bool, delivered: seq<Update>, failures: nat)

  datatype Reaction = Reaction(action: Subscription, sent: seq<Request>)

  function Abort(a: Subscription): Reaction {
    Reaction(a.(failures := if a.closed then a.failures else a.failures + 1, closed := true), [])
  }

  function Submit(a: Subscription, r: Request, up: bool): Reaction {
    if up && ValidPath(r.path) then Reaction(a, [r]) else Abort(a)
  }

  function Satisfy(a: Subscription, u: Update): Reaction {
    Reaction(if a.closed then a else a.(delivered := a.delivered + [u]), [])
  }

  function Run(path: string, up: bool): Reaction {
    Submit(Subscription(path, false, [], 0), Exists(path, true), up)
  }

  /** Any failure of the first look is reported as "not existing". */
  function OnExists(a: Subscription, rc: Code, up: bool): Reaction {
    if rc.Ok? then Submit(a, Get(a.path, false), up) else Satisfy(a, Missing)
  }

  function OnGet(a: Subscription, m: Message): Reaction
    requires m.GetReply?
  {
    if !m.rc.Ok? || m.hasChildren then Abort(a) else Satisfy(a, Present(m.value, m.version, m.epoch))
  }

  function OnEvent(a: Subscription, kind: Kind, up: bool): Reaction {
    if a.closed then Reaction(a, [])
    else if kind.Created? || kind.Changed? || kind == Session(true) then Submit(a, Get(a.path, true), up)
    else Abort(a)
  }

  function OnMessage(a: Subscription, m: Message, up: bool): Reaction {
    match m
    case ExistsReply(rc) => OnExists(a, rc, up)
    case GetReply(_, _, _, _, _) => OnGet(a, m)
    case Event(kind, _) => OnEvent(a, kind, up)
    case _ => Reaction(a, [])
  }

  class SubscribeAction {
    const path: string
    var closed: bool
    var delivered: seq<Update>
    var failures: nat
    var sent: seq<Request>

    function View(): Subscription
      reads this
    {
      Subscription(path, closed, delivered, failures)
    }

    twostate predicate Reacted(r: Reaction)
      reads this
    {
      View() == r.action && sent == old(sent) + r.sent
    }

    constructor (path: string)
      ensures View() == Subscription(path, false, [], 0) && sent == []
    {
      this.path := path;
      closed, delivered, failures, sent := false, [], 0, [];
    }

    method AbortWithCurrentException()
      modifies this
      ensures Reacted(Abort(old(View())))
    {
      if !closed {
        failures := failures + 1;
      }
      closed := true;
    }

    method SubmitRequest(r: Request, up: bool)
      modifies this
      ensures Reacted(Submit(old(View()), r, up))
    {
      if up && ValidPath(r.path) {
        sent := sent + [r];
      } else {
        AbortWithCurrentException();
      }
    }

    method SatisfyWith(u: Update)
      modifies this
      ensures Reacted(Satisfy(old(View()), u))
    {
      if !closed {
        delivered := delivered + [u];
      }
    }

    method Handle(m: Message, up: bool)
      modifies this
      ensures Reacted(OnMessage(old(View()), m, up))
    {
      match m {
        case ExistsReply(rc) =>
          if rc.Ok? {
            SubmitRequest(Get(path, false), up);
          } else {
            SatisfyWith(Missing);
          }
        case GetReply(rc, value, version, epoch, hasChildren) =>
          if !rc.Ok? || hasChildren {
            AbortWithCurrentException();
          } else {
            SatisfyWith(Present(value, version, epoch));
          }
        case Event(kind, _) =>
          if !closed {
            if kind.Created? || kind.Changed? || kind == Session(true) {
              SubmitRequest(Get(path, true), up);
            } else {
              AbortWithCurrentException();
            }
          }
        case CreateReply(_, _) =>
        case PutReply(_, _) =>
        case ChildrenReply(_, _) =>
        case DeleteReply(_) =>
      }
    }
  }
}

/** One subscription against everything other clients may do to the tree. */
module SubscribeSystem {
  import opened Server
  import opened SubscribeRecipe

  /** `blind` remembers that the first look was answered with a failure other than "no node". */
  datatype System = System(tree: Tree, action: Subscription, link: Link, blind: bool)

  datatype Step =
    | ServeNext(fate: Fate)
    | Deliver(up: bool)
    | CloseScope
    | SessionEvent(connected: bool)
    | Cancel
    | OthersCreate(path: string, value: Value)
    | OthersPut(path: string, value: Value)
    | OthersDelete(path: string)

  ghost predicate WellStamped(t: Tree) {
    forall p :: p in t.nodes ==> t.nodes[p].epoch < t.epoch
  }

  ghost predicate Initial(s: System) {
    && WellStamped(s.tree) && !s.blind
    && exists path, up :: var r := Run(path, up); s.action == r.action && s.link == Link(r.sent, [], [])
  }

  function SessionEvents(watches: seq<string>, connected: bool): seq<Message> {
    if watches == [] then [] else [Event(Session(connected), "")] + SessionEvents(watches[1..], connected)
  }

  ghost predicate Enabled(s: System, step: Step) {
    match step
    case ServeNext(_) => s.link.out != []
    case Deliver(_) => s.link.inn != []
    case OthersCreate(path, _) => CreateCode(s.tree, path).Ok?
    case OthersPut(path, _) => path in s.tree.nodes
    case OthersDelete(path) => path in s.tree.nodes
    case _ => true
  }

  function React(s: System, r: Reaction): System {
    s.(action := r.action, link := s.link.(out := s.link.out + r.sent))
  }

  function Popped(s: System): System
    requires s.link.inn != []
  {
    s.(link := s.link.(inn := s.link.inn[1..]))
  }

  function Others(s: System, tree: Tree, change: Change): System {
    s.(tree := tree, link := Notify(s.link, change))
  }

  ghost function Next(s: System, step: Step): System
    requires Enabled(s, step)
  {
    match step
    case ServeNext(fate) =>
      var o := Serve(s.tree, s.link.out[0], [], fate);
      s.(tree := o.tree, link := Answer(s.link, o), blind := s.blind || o.reply == ExistsReply(Failed))
    case Deliver(up) => React(Popped(s), OnMessage(s.action, s.link.inn[0], up))
    case CloseScope => s.(action := s.action.(closed := true))
    case SessionEvent(connected) =>
      s.(link := s.link.(inn := s.link.inn + SessionEvents(s.link.watches, connected), watches := []))
    case Cancel => React(s, OnEvent(s.action, Session(false), true))
    case OthersCreate(path, value) => Others(s, WithNode(s.tree, path, value), Fired(Created, path))
    case OthersPut(path, value) => Others(s, WithValue(s.tree, path, value), Fired(Changed, path))
    case OthersDelete(path) => Others(s, WithoutNode(s.tree, path), Fired(Deleted, path))
  }

  ghost predicate Runs(s0: System, steps: seq<Step>, s: System)
    decreases |steps|
  {
    if steps == [] then s == s0
    else Enabled(s0, steps[0]) && Runs(Next(s0, steps[0]), steps[1..], s)
  }

  function Current(t: Tree, path: string): Update {
    if path in t.nodes then Present(t.nodes[path].value, t.nodes[path].version, t.nodes[path].epoch) else Missing
  }

  // ----- what has been seen, delivered or still on its way

  predicate Bad(m: Message) {
    m.GetReply? && (!m.rc.Ok? || m.hasChildren)
  }

  /** The update a message will deliver. */
  function Shown(m: Message): seq<Update> {
    match m
    case GetReply(rc, value, version, epoch, hasChildren) =>
      if rc.Ok? && !hasChildren then [Present(value, version, epoch)] else []
    case ExistsReply(rc) => if rc.Ok? then [] else [Missing]
    case _ => []
  }

  function Coming(inn: seq<Message>): seq<Update> {
    if inn == [] then [] else Shown(inn[0]) + Coming(inn[1..])
  }

  function Seen(s: System): seq<Update> {
    s.action.delivered + Coming(s.link.inn)
  }
}
