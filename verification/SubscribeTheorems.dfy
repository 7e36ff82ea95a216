/** A subscription converges to the node, and never shows an older state after a newer one. */
module SubscribeTheorems {
  import opened Wrappers
  import opened Paths
  import opened Server
  import opened SubscribeRecipe
  import opened SubscribeSystem

  // ----- invariants

  predicate Lookup(path: string, r: Request) {
    r == Exists(path, true) || r == Get(path, true) || r == Get(path, false)
  }

  /** Only the subscription's own traffic; the first look happens once and alone. */
  predicate Traffic(s: System) {
    var path, k := s.action.path, s.link;
    && (forall r :: r in k.out ==> Lookup(path, r))
    && (forall w :: w in k.watches ==> w == path)
    && (Exists(path, true) in k.out ==> k == Link([Exists(path, true)], [], []) && s.action.delivered == [] && !s.blind)
  }

  /** After a failed first look nothing more ever happens. */
  predicate BlindShape(s: System) {
    s.blind ==>
      && s.link.out == [] && s.link.watches == []
      && (|| (s.link.inn == [ExistsReply(Failed)] && s.action.delivered == [])
          || (s.link.inn == [] && (s.action.delivered == [Missing] || s.action.closed)))
  }

  /** The state shown by `u` was not newer than the one shown by `v`. */
  predicate Earlier(u: Update, v: Update) {
    u.Missing? || (v.Present? && (u.epoch < v.epoch || (u.epoch == v.epoch && u.version <= v.version)))
  }

  predicate Ordered(us: seq<Update>) {
    forall i, j :: 0 <= i < j < |us| ==> Earlier(us[i], us[j])
  }

  predicate NotAhead(t: Tree, path: string, u: Update) {
    u.Present? ==> u.epoch < t.epoch && (path in t.nodes ==> Earlier(u, Current(t, path)))
  }

  ghost predicate InOrder(s: System) {
    && Ordered(s.action.delivered)
    && (!s.action.closed ==> Ordered(Seen(s)) && forall u :: u in Seen(s) ==> NotAhead(s.tree, s.action.path, u))
  }

  /** Something is under way that makes the client look again or give up. */
  ghost predicate Awake(s: System) {
    || (exists m :: m in s.link.inn && (m.Event? || Bad(m)))
    || Get(s.action.path, true) in s.link.out
    || Exists(s.action.path, true) in s.link.out
  }

  /** The watch is live, and the newest state seen is the current one or about to be read. */
  ghost predicate Settled(s: System) {
    && s.action.path in s.link.watches
    && (|| Get(s.action.path, false) in s.link.out
        || ExistsReply(Ok) in s.link.inn
        || (Seen(s) != [] && Seen(s)[|Seen(s)| - 1] == Current(s.tree, s.action.path)))
  }

  ghost predicate Converging(s: System) {
    !s.action.closed && !s.blind ==> Awake(s) || Settled(s)
  }

  ghost predicate Inv(s: System) {
    WellStamped(s.tree) && Traffic(s) && BlindShape(s) && InOrder(s) && Converging(s)
  }

  // ----- small facts

  lemma {:induction false} ComingConcat(a: seq<Message>, b: seq<Message>)
    ensures Coming(a + b) == Coming(a) + Coming(b)
  {
    if a == [] {
      assert a + b == b;
    } else {
      assert (a + b)[1..] == a[1..] + b;
      ComingConcat(a[1..], b);
    }
  }

  lemma {:induction false} EventsShowNothing(ms: seq<Message>)
    requires forall m :: m in ms ==> m.Event?
    ensures Coming(ms) == []
  {
    if ms != [] {
      assert ms[0] in ms;
      EventsShowNothing(ms[1..]);
    }
  }

  lemma {:induction false} SessionEventsSpec(watches: seq<string>, connected: bool)
    ensures |SessionEvents(watches, connected)| == |watches|
    ensures forall m :: m in SessionEvents(watches, connected) ==> m == Event(Session(connected), "")
  {
    if watches != [] {
      SessionEventsSpec(watches[1..], connected);
    }
  }

  lemma OrderedPrefix(a: seq<Update>, b: seq<Update>)
    requires Ordered(a + b)
    ensures Ordered(a)
  {
    assert forall i :: 0 <= i < |a| ==> (a + b)[i] == a[i];
  }

  // ----- the environment

  predicate Ages(path: string, t: Tree, t': Tree) {
    && t.epoch <= t'.epoch
    && (path in t'.nodes ==>
          if path in t.nodes then
            t'.nodes[path].epoch == t.nodes[path].epoch && t'.nodes[path].version >= t.nodes[path].version
          else t'.nodes[path].epoch >= t.epoch)
  }

  lemma NotAheadAges(path: string, t: Tree, t': Tree, u: Update)
    requires NotAhead(t, path, u) && Ages(path, t, t')
    ensures NotAhead(t', path, u)
  {
  }

  ghost predicate Changes(t: Tree, change: Change, t': Tree) {
    && change.Fired? && WellStamped(t')
    && (forall p :: p != change.path ==> (p in t'.nodes <==> p in t.nodes))
    && (forall p :: p != change.path && p in t.nodes ==> t'.nodes[p] == t.nodes[p])
    && Ages(change.path, t, t')
  }

  lemma OthersShowNothing(s: System, t': Tree, change: Change)
    requires change.Fired?
    ensures var s' := Others(s, t', change);
            && Seen(s') == Seen(s)
            && (forall m :: m in s.link.inn ==> m in s'.link.inn)
            && (forall w :: w in s'.link.watches <==> w in s.link.watches && w != change.path)
            && (change.path in s.link.watches ==> Event(change.kind, change.path) in s'.link.inn)
            && (change.path !in s.link.watches ==> s'.link.inn == s.link.inn)
  {
    var events := Events(s.link.watches, change.kind, change.path);
    EventsSpec(s.link.watches, change.kind, change.path);
    RemainingSpec(s.link.watches, change.path);
    ComingConcat(s.link.inn, events);
    EventsShowNothing(events);
  }

  lemma OthersKeepOrder(s: System, t': Tree, change: Change)
    requires InOrder(s) && Changes(s.tree, change, t')
    ensures InOrder(Others(s, t', change))
  {
    OthersShowNothing(s, t', change);
    forall u | u in Seen(s) && NotAhead(s.tree, s.action.path, u)
      ensures NotAhead(t', s.action.path, u)
    {
      NotAheadAges(s.action.path, s.tree, t', u);
    }
  }

  lemma OthersConverge(s: System, t': Tree, change: Change)
    requires Converging(s) && Changes(s.tree, change, t')
    ensures Converging(Others(s, t', change))
  {
    OthersShowNothing(s, t', change);
  }

  lemma OthersKeepInv(s: System, t': Tree, change: Change)
    requires Inv(s) && Changes(s.tree, change, t')
    ensures Inv(Others(s, t', change))
  {
    OthersShowNothing(s, t', change);
    OthersKeepOrder(s, t', change);
    OthersConverge(s, t', change);
    if s.link.watches == [] {
      assert Others(s, t', change).link == s.link;
    }
  }

  // ----- serving

  lemma SeenGrows(s: System, reply: Message)
    ensures Seen(s.(link := s.link.(inn := s.link.inn + [reply]))) == Seen(s) + Shown(reply)
  {
    ComingConcat(s.link.inn, [reply]);
    assert Coming([reply]) == Shown(reply);
  }

  lemma AnswerKeepsOrder(s: System, reply: Message)
    requires InOrder(s)
    requires Shown(reply) == [] || (Shown(reply) == [Current(s.tree, s.action.path)] && WellStamped(s.tree))
    requires Shown(reply) == [Missing] ==> Seen(s) == []
    ensures InOrder(s.(link := s.link.(inn := s.link.inn + [reply])))
  {
    SeenGrows(s, reply);
    if !s.action.closed {
      if Shown(reply) == [] {
        assert Seen(s) + [] == Seen(s);
      } else {
        CurrentIsNewest(s.tree, s.action.path, Seen(s));
      }
    }
  }

  lemma CurrentIsNewest(t: Tree, path: string, us: seq<Update>)
    requires Ordered(us) && WellStamped(t) && forall u :: u in us ==> NotAhead(t, path, u)
    requires Current(t, path) == Missing ==> us == []
    ensures var vs := us + [Current(t, path)];
            Ordered(vs) && forall u :: u in vs ==> NotAhead(t, path, u)
  {
    forall i | 0 <= i < |us|
      ensures Earlier(us[i], Current(t, path))
    {
      assert us[i] in us;
    }
  }

  /** What the server answers to a request of the subscription. */
  predicate Truthful(s: System, r: Request, o: Outcome) {
    var path := s.action.path;
    && o.tree == s.tree && o.change.Silent?
    && (o.reply.GetReply? <==> r.Get?) && (o.reply.ExistsReply? <==> r.Exists?)
    && (Shown(o.reply) == [] || Shown(o.reply) == [Current(s.tree, path)] || o.reply == ExistsReply(Failed))
    && (r.Get? ==> Bad(o.reply) || Shown(o.reply) == [Current(s.tree, path)])
    && (r == Get(path, true) && !Bad(o.reply) ==> o.watch == Some(path))
    && (r.Exists? && o.reply != ExistsReply(Failed) ==>
          o.watch == Some(path) && (o.reply == ExistsReply(Ok) || Shown(o.reply) == [Current(s.tree, path)]))
    && (o.watch.Some? ==> o.watch.value == path)
    && (o.reply == ExistsReply(Failed) ==> o.watch.None?)
  }

  lemma ServeShows(s: System, fate: Fate)
    requires Traffic(s) && s.link.out != []
    ensures Truthful(s, s.link.out[0], Serve(s.tree, s.link.out[0], [], fate))
  {
    assert Lookup(s.action.path, s.link.out[0]);
  }

  lemma ReadKeepsTraffic(s: System, o: Outcome)
    requires Traffic(s) && s.link.out != [] && s.link.out[0].Get? && o.change.Silent?
    requires o.watch.Some? ==> o.watch.value == s.action.path
    ensures Traffic(s.(link := Answer(s.link, o)))
  {
    var s' := s.(link := Answer(s.link, o));
    assert s.link.out[0] in s.link.out;
    assert forall r :: r in s'.link.out ==> r in s.link.out;
  }

  lemma FirstLookAnswered(s: System, o: Outcome)
    requires Traffic(s) && s.link.out != [] && s.link.out[0].Exists? && o.change.Silent?
    requires o.watch.Some? ==> o.watch.value == s.action.path
    requires o.reply == ExistsReply(Failed) ==> o.watch.None?
    ensures var s' := s.(link := Answer(s.link, o), blind := s.blind || o.reply == ExistsReply(Failed));
            Traffic(s') && BlindShape(s')
  {
    assert s.link.out[0] in s.link.out;
    assert s.link == Link([Exists(s.action.path, true)], [], []);
    assert Answer(s.link, o) == Link([], [o.reply], if o.watch.Some? then [o.watch.value] else []);
  }

  lemma ServeKeepsShape(s: System, fate: Fate)
    requires Inv(s) && s.link.out != []
    ensures var s' := Next(s, ServeNext(fate)); WellStamped(s'.tree) && Traffic(s') && BlindShape(s')
  {
    ServeShows(s, fate);
    var o := Serve(s.tree, s.link.out[0], [], fate);
    if s.link.out[0].Exists? {
      FirstLookAnswered(s, o);
    } else {
      assert Lookup(s.action.path, s.link.out[0]);
      ReadKeepsTraffic(s, o);
    }
  }

  lemma ServeKeepsOrder(s: System, fate: Fate)
    requires Inv(s) && s.link.out != []
    ensures InOrder(Next(s, ServeNext(fate)))
  {
    ServeShows(s, fate);
    var o := Serve(s.tree, s.link.out[0], [], fate);
    var s' := Next(s, ServeNext(fate));
    assert s.link.out[0] in s.link.out;
    if o.reply == ExistsReply(Failed) {
      assert s'.link.inn == [o.reply];
      assert Coming([o.reply]) == Shown(o.reply) + Coming([]);
      assert Seen(s') == [Missing];
    } else {
      AnswerKeepsOrder(s, o.reply);
      assert Seen(s') == Seen(s.(link := s.link.(inn := s.link.inn + [o.reply])));
    }
  }

  lemma AnswerShows(s: System, o: Outcome)
    requires s.link.out != [] && o.change.Silent?
    ensures var s' := s.(link := Answer(s.link, o));
            && Seen(s') == Seen(s) + Shown(o.reply)
            && o.reply in s'.link.inn
            && (forall m :: m in s.link.inn ==> m in s'.link.inn)
            && (forall q :: q in s.link.out ==> q == s.link.out[0] || q in s'.link.out)
            && (forall w :: w in s.link.watches ==> w in s'.link.watches)
            && (o.watch.Some? ==> o.watch.value in s'.link.watches)
  {
    ComingConcat(s.link.inn, [o.reply]);
    assert Coming([o.reply]) == Shown(o.reply);
  }

  /** The client looks again, or its watch is set and the newest state is on its way. */
  lemma AnswerConverges(s: System, o: Outcome)
    requires Traffic(s) && s.link.out != [] && Truthful(s, s.link.out[0], o)
    requires !s.action.closed && !s.blind && o.reply != ExistsReply(Failed)
    requires Awake(s) || Settled(s)
    ensures var s' := s.(link := Answer(s.link, o)); Awake(s') || Settled(s')
  {
    assert s.link.out[0] in s.link.out;
    AnswerShows(s, o);
  }

  lemma ServeConverges(s: System, fate: Fate)
    requires Inv(s) && s.link.out != []
    ensures Converging(Next(s, ServeNext(fate)))
  {
    ServeShows(s, fate);
    var o := Serve(s.tree, s.link.out[0], [], fate);
    if !s.action.closed && !s.blind && o.reply != ExistsReply(Failed) {
      AnswerConverges(s, o);
      assert Next(s, ServeNext(fate)) == s.(link := Answer(s.link, o));
    }
  }

  // ----- delivering

  lemma ReactionShows(a: Subscription, m: Message, up: bool)
    ensures var b := OnMessage(a, m, up).action;
            && b.path == a.path && (a.closed ==> b.closed)
            && (b.closed ==> b.delivered == a.delivered)
            && (!b.closed ==> b.delivered == a.delivered + Shown(m))
  {
  }

  lemma DeliverShows(s: System, up: bool)
    requires s.link.inn != []
    ensures var s' := Next(s, Deliver(up));
            && s'.tree == s.tree && s'.action.path == s.action.path && s'.link.watches == s.link.watches
            && (s.action.closed ==> s'.action.closed && s'.action.delivered == s.action.delivered)
            && (s'.action.closed && !s.action.closed ==> s'.action.delivered == s.action.delivered)
            && (!s'.action.closed ==>
                  Seen(s') == Seen(s) && s'.action.delivered == s.action.delivered + Shown(s.link.inn[0]))
  {
    ReactionShows(s.action, s.link.inn[0], up);
    assert Coming(s.link.inn) == Shown(s.link.inn[0]) + Coming(s.link.inn[1..]);
  }

  lemma DeliverKeepsOrder(s: System, up: bool)
    requires Inv(s) && s.link.inn != []
    ensures InOrder(Next(s, Deliver(up)))
  {
    DeliverShows(s, up);
    var s' := Next(s, Deliver(up));
    if !s'.action.closed {
      OrderedPrefix(s'.action.delivered, Coming(s'.link.inn));
    }
  }

  lemma DeliverKeepsShape(s: System, up: bool)
    requires Inv(s) && s.link.inn != []
    ensures var s' := Next(s, Deliver(up)); WellStamped(s'.tree) && Traffic(s') && BlindShape(s')
  {
    var s' := Next(s, Deliver(up));
    var r := OnMessage(s.action, s.link.inn[0], up);
    assert forall q :: q in r.sent ==> Lookup(s.action.path, q) && !q.Exists?;
    assert forall q :: q in s'.link.out ==> q in s.link.out || q in r.sent;
  }

  lemma DeliverConverges(s: System, up: bool)
    requires Inv(s) && s.link.inn != []
    ensures Converging(Next(s, Deliver(up)))
  {
    DeliverShows(s, up);
    var s' := Next(s, Deliver(up));
    var m := s.link.inn[0];
    if s'.action.closed || s'.blind { return; }
    var r := OnMessage(s.action, m, up);
    assert forall q :: q in r.sent || q in s.link.out ==> q in s'.link.out;
    assert forall x :: x in s.link.inn ==> x == m || x in s'.link.inn;
    if m.Event? {
      assert Get(s.action.path, true) in r.sent;
    } else if m == ExistsReply(Ok) {
      assert Get(s.action.path, false) in r.sent;
    }
  }

  // ----- the rest

  lemma SessionKeepsInv(s: System, connected: bool)
    requires Inv(s)
    ensures Inv(Next(s, SessionEvent(connected)))
  {
    var s' := Next(s, SessionEvent(connected));
    var events := SessionEvents(s.link.watches, connected);
    SessionEventsSpec(s.link.watches, connected);
    ComingConcat(s.link.inn, events);
    EventsShowNothing(events);
    assert Seen(s') == Seen(s);
    assert forall m :: m in s.link.inn || m in events ==> m in s'.link.inn;
    if s.link.watches != [] {
      assert events[0] in events;
    } else {
      assert s'.link == s.link;
    }
  }

  lemma StepKeepsInv(s: System, step: Step)
    requires Inv(s) && Enabled(s, step)
    ensures Inv(Next(s, step))
  {
    match step {
      case ServeNext(fate) =>
        ServeKeepsShape(s, fate);
        ServeKeepsOrder(s, fate);
        ServeConverges(s, fate);
      case Deliver(up) =>
        DeliverKeepsShape(s, up);
        DeliverKeepsOrder(s, up);
        DeliverConverges(s, up);
      case CloseScope =>
      case SessionEvent(connected) => SessionKeepsInv(s, connected);
      case Cancel =>
        assert s.link.out + [] == s.link.out;
      case OthersCreate(path, value) => OthersKeepInv(s, WithNode(s.tree, path, value), Fired(Created, path));
      case OthersPut(path, value) => OthersKeepInv(s, WithValue(s.tree, path, value), Fired(Changed, path));
      case OthersDelete(path) => OthersKeepInv(s, WithoutNode(s.tree, path), Fired(Deleted, path));
    }
  }

  lemma {:induction false} RunsKeepInv(s0: System, steps: seq<Step>, s: System)
    requires Inv(s0) && Runs(s0, steps, s)
    ensures Inv(s)
    decreases |steps|
  {
    if steps != [] {
      StepKeepsInv(s0, steps[0]);
      RunsKeepInv(Next(s0, steps[0]), steps[1..], s);
    }
  }

  lemma InitialIsGood(s: System)
    requires Initial(s)
    ensures Inv(s)
  {
    assert Seen(s) == [];
  }

  // ----- the guarantees

  ghost predicate Quiet(s: System) {
    s.link.out == [] && s.link.inn == [] && !s.action.closed
  }

  ghost predicate UpToDate(s: System) {
    var d := s.action.delivered;
    d != [] && d[|d| - 1] == Current(s.tree, s.action.path)
  }

  /** Whenever nothing is in flight, the last update delivered to an open subscription is the
      node's current state - unless the first look failed, and then exactly if the node is
      absent. */
  lemma Convergence(s0: System, steps: seq<Step>, s: System)
    requires Initial(s0) && Runs(s0, steps, s) && Quiet(s)
    ensures UpToDate(s) <==> !s.blind || s.action.path !in s.tree.nodes
  {
    InitialIsGood(s0);
    RunsKeepInv(s0, steps, s);
    assert Seen(s) == s.action.delivered;
  }

  /** Delivered states never go back in time, in every run. */
  lemma NeverBackInTime(s0: System, steps: seq<Step>, s: System)
    requires Initial(s0) && Runs(s0, steps, s)
    ensures Ordered(s.action.delivered)
  {
    InitialIsGood(s0);
    RunsKeepInv(s0, steps, s);
  }

  predicate VersionsAscend(us: seq<Update>) {
    forall i, j :: 0 <= i < j < |us| && us[i].Present? ==> us[j].Present? && us[i].version <= us[j].version
  }

  // ----- what the two exceptions look like

  lemma {:induction false} OneMore(s0: System, steps: seq<Step>, s: System, step: Step)
    requires Runs(s0, steps, s) && Enabled(s, step)
    ensures Runs(s0, steps + [step], Next(s, step))
    decreases |steps|
  {
    var more := steps + [step];
    if steps == [] {
      assert more[0] == step && more[1..] == [];
      assert Runs(Next(s, step), [], Next(s, step));
    } else {
      assert more[0] == steps[0] && more[1..] == steps[1..] + [step];
      OneMore(Next(s0, steps[0]), steps[1..], s, step);
    }
  }

  function Fresh(t: Tree): System {
    System(t, Subscription("/n", false, [], 0), Link([Exists("/n", true)], [], []), false)
  }

  lemma FreshIsInitial(t: Tree)
    requires WellStamped(t)
    ensures Initial(Fresh(t))
  {
    var r := Run("/n", true);
    assert r.action == Fresh(t).action && r.sent == Fresh(t).link.out;
  }

  /** A first look that fails leaves the user with "not existing" for a node that exists. */
  lemma BlindExample() returns (s0: System, steps: seq<Step>, s: System)
    ensures Initial(s0) && Runs(s0, steps, s) && Quiet(s) && !UpToDate(s)
  {
    s0 := Fresh(Tree(map["/n" := Node(Blank, 0, 0)], 1, 0));
    FreshIsInitial(s0.tree);
    var s1 := Next(s0, ServeNext(Refused));
    assert s1.link == Link([], [ExistsReply(Failed)], []);
    s := Next(s1, Deliver(true));
    assert s.link == Link([], [], []) && s.action.delivered == [Missing];
    OneMore(s0, [], s0, ServeNext(Refused));
    OneMore(s0, [ServeNext(Refused)], s1, Deliver(true));
    steps := [ServeNext(Refused)] + [Deliver(true)];
  }

  /** The state in which version 1 of "/n" was delivered and its watch is live. */
  function Following(t: Tree): System {
    System(t, Subscription("/n", false, [Present(Blank, 1, 0)], 0), Link([], [], ["/n"]), false)
  }

  lemma FollowingIsReached() returns (s0: System, steps: seq<Step>, s: System)
    ensures Initial(s0) && Runs(s0, steps, s)
    ensures s == Following(Tree(map["/n" := Node(Blank, 1, 0)], 1, 0))
  {
    var t := Tree(map["/n" := Node(Blank, 1, 0)], 1, 0);
    s0 := Fresh(t);
    FreshIsInitial(t);
    NoChildren(t);
    var s1 := Next(s0, ServeNext(Answered));
    assert s1.link == Link([], [ExistsReply(Ok)], ["/n"]);
    var s2 := Next(s1, Deliver(true));
    assert s2.link == Link([Get("/n", false)], [], ["/n"]);
    var s3 := Next(s2, ServeNext(Answered));
    assert s3.link == Link([], [GetReply(Ok, Blank, 1, 0, false)], ["/n"]);
    s := Next(s3, Deliver(true));
    assert s.action.delivered == [Present(Blank, 1, 0)] && s.link == Link([], [], ["/n"]);
    OneMore(s0, [], s0, ServeNext(Answered));
    steps := [] + [ServeNext(Answered)];
    OneMore(s0, steps, s1, Deliver(true));
    steps := steps + [Deliver(true)];
    OneMore(s0, steps, s2, ServeNext(Answered));
    steps := steps + [ServeNext(Answered)];
    OneMore(s0, steps, s3, Deliver(true));
    steps := steps + [Deliver(true)];
  }

  lemma NoChildren(t: Tree)
    requires t.nodes.Keys <= {"/n"}
    ensures ChildNames(t, "/n") == {}
  {
    forall name
      ensures name !in ChildNames(t, "/n")
    {
      ChildNamesAreChildren(t, "/n", name);
    }
  }

  /** The state in which a write was noticed and the re-read is on its way, unwatched. */
  function Rereading(t: Tree): System {
    System(t, Subscription("/n", false, [Present(Blank, 1, 0)], 0), Link([Get("/n", true)], [], []), false)
  }

  lemma RereadingIsReached() returns (s0: System, steps: seq<Step>, s: System)
    ensures Initial(s0) && Runs(s0, steps, s)
    ensures s == Rereading(Tree(map["/n" := Node(Blank, 2, 0)], 1, 0))
  {
    var a;
    s0, steps, a := FollowingIsReached();
    var b := Next(a, OthersPut("/n", Blank));
    assert Events(["/n"], Changed, "/n") == [Event(Changed, "/n")];
    assert Remaining(["/n"], "/n") == [];
    assert b.link == Link([], [Event(Changed, "/n")], []);
    s := Next(b, Deliver(true));
    assert s.link == Link([Get("/n", true)], [], []);
    OneMore(s0, steps, a, OthersPut("/n", Blank));
    steps := steps + [OthersPut("/n", Blank)];
    OneMore(s0, steps, b, Deliver(true));
    steps := steps + [Deliver(true)];
  }

  lemma ReplacedIsReached() returns (s0: System, steps: seq<Step>, s: System)
    ensures Initial(s0) && Runs(s0, steps, s)
    ensures s == Rereading(Tree(map["/n" := Node(Blank, 0, 1)], 2, 0))
  {
    var a;
    s0, steps, a := RereadingIsReached();
    var b := Next(a, OthersDelete("/n"));
    assert b == Rereading(Tree(map[], 1, 0));
    assert PathParent("/n", 1) == Some("") by { ParentOfJoin("", "n"); assert Join("", "n") == "/n"; }
    s := Next(b, OthersCreate("/n", Blank));
    OneMore(s0, steps, a, OthersDelete("/n"));
    steps := steps + [OthersDelete("/n")];
    OneMore(s0, steps, b, OthersCreate("/n", Blank));
    steps := steps + [OthersCreate("/n", Blank)];
  }

  /** A write, a deletion and a re-creation between two reads: the user sees version 1 and
      then version 0. */
  lemma BackwardsExample() returns (s0: System, steps: seq<Step>, s: System)
    ensures Initial(s0) && Runs(s0, steps, s) && !VersionsAscend(s.action.delivered)
  {
    var a;
    s0, steps, a := ReplacedIsReached();
    NoChildren(a.tree);
    var b := Next(a, ServeNext(Answered));
    assert b.link == Link([], [GetReply(Ok, Blank, 0, 1, false)], ["/n"]);
    s := Next(b, Deliver(true));
    var us := s.action.delivered;
    assert us[0] == Present(Blank, 1, 0) && us[1] == Present(Blank, 0, 1);
    OneMore(s0, steps, a, ServeNext(Answered));
    steps := steps + [ServeNext(Answered)];
    OneMore(s0, steps, b, Deliver(true));
    steps := steps + [Deliver(true)];
  }
}
