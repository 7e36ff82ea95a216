/** Any number of lock clients on one folder, the server, and an environment that creates,
    changes and deletes other nodes, expires lock nodes, loses answers and drops sessions. */
module LockSystem {
  import opened Wrappers
  import opened Paths
  import opened Server
  import opened LockRecipe

  /** `ticket` is the number the server gave to the client's sequence node. */
  datatype Client = Client(lock: Lock, link: Link, ticket: Option<nat>)

  /** `issued` remembers every number given to a lock node of this folder. */
  datatype System = System(folder: string, tree: Tree, issued: set<nat>, clients: map<nat, Client>)

  datatype Step =
    | Start(c: nat, value: Value, net: Net)
    | ServeNext(c: nat, listing: seq<string>, fate: Fate)
    | Deliver(c: nat, net: Net)
    | CloseLock(c: nat, up: bool)
    | SessionEvent(c: nat, connected: bool, net: Net)
    | OthersCreate(path: string, value: Value)
    | OthersPut(path: string, value: Value)
    | OthersDelete(path: string)
    | OthersCount(counter: nat)

  function LockName(k: nat): string {
    SequenceName("lock", k)
  }

  function LockNode(folder: string, k: nat): string {
    SequenceName(LockPath(folder), k)
  }

  ghost predicate Initial(s: System) {
    s.issued == {} && s.clients == map[]
  }

  function React(cl: Client, r: Reaction): Client {
    cl.(lock := r.lock, link := cl.link.(out := cl.link.out + r.sent))
  }

  function Popped(cl: Client): Client
    requires cl.link.inn != []
  {
    cl.(link := cl.link.(inn := cl.link.inn[1..]))
  }

  function Handled(cl: Client, net: Net): Client
    requires cl.link.inn != []
  {
    React(Popped(cl), OnMessage(cl.lock, cl.link.inn[0], net))
  }

  function Told(cl: Client, change: Change): Client {
    cl.(link := Notify(cl.link, change))
  }

  predicate TakesTicket(r: Request, change: Change) {
    r.Create? && r.sequence && change.Fired?
  }

  function Served(cl: Client, o: Outcome, counter: nat): Client
    requires cl.link.out != []
  {
    cl.(link := Answer(cl.link, o),
        ticket := if TakesTicket(cl.link.out[0], o.change) then Some(counter) else cl.ticket)
  }

  function TellAll(clients: map<nat, Client>, change: Change): map<nat, Client> {
    map d | d in clients :: Told(clients[d], change)
  }

  function Others(s: System, tree: Tree, change: Change): System {
    s.(tree := tree, clients := TellAll(s.clients, change))
  }

  function OutcomeOf(s: System, cl: Client, listing: seq<string>, fate: Fate): Outcome
    requires cl.link.out != []
  {
    Serve(s.tree, cl.link.out[0], listing, fate)
  }

  ghost predicate Enabled(s: System, step: Step) {
    match step
    case Start(c, _, _) => c !in s.clients
    case ServeNext(c, listing, _) =>
      && c in s.clients && s.clients[c].link.out != []
      && var r := s.clients[c].link.out[0];
      && ListingFor(s.tree, r, listing)
      && (r.Create? && r.sequence ==> s.tree.counter <= MAX_SEQUENCE)
    case Deliver(c, _) => c in s.clients && s.clients[c].link.inn != []
    case CloseLock(c, _) => c in s.clients
    case SessionEvent(c, _, _) => c in s.clients
    case OthersCreate(path, _) =>
      && CreateCode(s.tree, path).Ok?
      && forall k :: k in s.issued ==> path != LockNode(s.folder, k)
    case OthersPut(path, _) => path in s.tree.nodes
    case OthersDelete(path) => path in s.tree.nodes
    case OthersCount(counter) => s.tree.counter <= counter
  }

  ghost function Next(s: System, step: Step): System
    requires Enabled(s, step)
  {
    match step
    case Start(c, value, net) =>
      var r := Run(s.folder, value, net);
      s.(clients := s.clients[c := Client(r.lock, Link(r.sent, [], []), None)])
    case ServeNext(c, listing, fate) =>
      var cl := s.clients[c];
      var o := OutcomeOf(s, cl, listing, fate);
      System(s.folder, o.tree,
             if TakesTicket(cl.link.out[0], o.change) then s.issued + {s.tree.counter} else s.issued,
             TellAll(s.clients, o.change)[c := Served(cl, o, s.tree.counter)])
    case Deliver(c, net) => s.(clients := s.clients[c := Handled(s.clients[c], net)])
    case CloseLock(c, up) => s.(clients := s.clients[c := React(s.clients[c], Close(s.clients[c].lock, up))])
    case SessionEvent(c, connected, net) =>
      s.(clients := s.clients[c := React(s.clients[c], OnEvent(s.clients[c].lock, Session(connected), net))])
    case OthersCreate(path, value) => Others(s, WithNode(s.tree, path, value), Fired(Created, path))
    case OthersPut(path, value) => Others(s, WithValue(s.tree, path, value), Fired(Changed, path))
    case OthersDelete(path) => Others(s, WithoutNode(s.tree, path), Fired(Deleted, path))
    case OthersCount(counter) => s.(tree := s.tree.(counter := counter))
  }

  /** `s` is reached from `s0` by these steps. */
  ghost predicate Runs(s0: System, steps: seq<Step>, s: System)
    decreases |steps|
  {
    if steps == [] then s == s0
    else Enabled(s0, steps[0]) && Runs(Next(s0, steps[0]), steps[1..], s)
  }

  // ----- what every reachable client satisfies

  /** A sibling path that sorts before the node with ticket `k`. */
  predicate IsBelow(folder: string, k: nat, p: string) {
    && |p| > |folder|
    && p == Join(folder, p[|folder| + 1..])
    && IsValidSequenceNode(p[|folder| + 1..])
    && Less(p[|folder| + 1..], LockName(k))
  }

  predicate CreationRequest(l: Lock, r: Request) {
    if l.depth == 0 then r == Create(LockPath(l.folder), l.value, true, true)
    else
      var p := PathParent(LockPath(l.folder), l.depth);
      p.Some? && r == Create(p.value, Blank, false, false)
  }

  /** Before the own node is known: at most one create is under way. */
  predicate Creating(folder: string, cl: Client) {
    var l, k := cl.lock, cl.link;
    && k.watches == [] && l.grants == 0 && l.prev == "" && l.held
    && (|| (k.out == [] && k.inn == [] && l.closed)
        || (|k.out| == 1 && k.inn == [] && cl.ticket.None? && CreationRequest(l, k.out[0]))
        || (&& k.out == [] && |k.inn| == 1 && k.inn[0].CreateReply?
            && var m := k.inn[0];
            && (m.rc.Ok? && l.depth == 0 ==> cl.ticket.Some? && m.created == LockNode(folder, cl.ticket.value))
            && (m.rc.NoNode? || (m.rc.Ok? && l.depth > 0) ==> cl.ticket.None?)))
  }

  predicate QueueRequest(folder: string, l: Lock, ticket: nat, r: Request) {
    || r == Children(folder)
    || (r.Exists? && r.watch && IsBelow(folder, ticket, r.path))
    || r == Get(l.created, true)
    || r == Delete(l.created, -1)
  }

  /** Afterwards: only the requests and messages of the queue in front of the lock. */
  predicate Queued(folder: string, cl: Client) {
    var l, k := cl.lock, cl.link;
    && cl.ticket.Some? && l.created == LockNode(folder, cl.ticket.value)
    && (forall r :: r in k.out ==> QueueRequest(folder, l, cl.ticket.value, r))
    && (forall m :: m in k.inn ==> !m.CreateReply? && !m.PutReply?)
    && (forall w :: w in k.watches ==> w == l.created || IsBelow(folder, cl.ticket.value, w))
    && (l.prev == "" || IsBelow(folder, cl.ticket.value, l.prev))
  }

  predicate Shape(folder: string, cl: Client) {
    var l := cl.lock;
    && l.folder == folder
    && l.failures <= 1 && (l.failures > 0 ==> l.closed)
    && (!l.closed ==> l.held)
    && (if l.created == "" then Creating(folder, cl) else Queued(folder, cl))
  }
}
