/** A lock client does not fail without cause: with a working connection and nobody else in its
    folder, no client is ever told a failure. */
module LockFailures {
  import opened Wrappers
  import opened Paths
  import opened Server
  import opened LockRecipe
  import opened LockSystem
  import opened LockShape
  import opened LockTheorems

  predicate Up(net: Net) {
    net.first && net.second && net.onAbort
  }

  /** Neither the folder nor anything below it. */
  predicate Elsewhere(folder: string, path: string) {
    path != folder && !(Join(folder, "") <= path)
  }

  /** Every request is answered, every submission accepted, the session lives, and others keep
      out of the folder. */
  predicate Calm(s: System, step: Step) {
    match step
    case Start(_, _, net) => Up(net)
    case ServeNext(_, _, fate) => fate.Answered?
    case Deliver(_, net) => Up(net)
    case CloseLock(_, _) => true
    case SessionEvent(_, _, _) => false
    case OthersCreate(path, _) => Elsewhere(s.folder, path)
    case OthersPut(path, _) => Elsewhere(s.folder, path)
    case OthersDelete(path) => Elsewhere(s.folder, path)
    case OthersCount(_) => true
  }

  ghost predicate CalmRun(s0: System, steps: seq<Step>, s: System)
    decreases |steps|
  {
    if steps == [] then s == s0
    else Enabled(s0, steps[0]) && Calm(s0, steps[0]) && CalmRun(Next(s0, steps[0]), steps[1..], s)
  }

  /** The folder exists, and holds only nodes of clients. */
  ghost predicate Tidy(folder: string, t: Tree, issued: set<nat>) {
    && ValidPath(folder) && folder in t.nodes
    && forall n :: n in ChildNames(t, folder) ==> exists k :: k in issued && n == LockName(k)
  }

  /** A message that is no reason to fail. */
  predicate Mild(cl: Client, m: Message) {
    match m
    case CreateReply(rc, _) => rc.Ok?
    case ChildrenReply(rc, children) =>
      && rc.Ok? && cl.ticket.Some? && LockName(cl.ticket.value) in children
      && forall n :: n in children ==> IsValidSequenceNode(n)
    case GetReply(rc, _, _, _, _) => rc.Ok?
    case ExistsReply(rc) => rc.Ok? || rc.NoNode?
    case Event(kind, _) => kind.Deleted?
    case _ => true
  }

  ghost predicate Benign(folder: string, t: Tree, cl: Client) {
    && cl.lock.failures == 0 && cl.lock.depth == 0
    && (cl.ticket.Some? && !cl.lock.closed ==> LockNode(folder, cl.ticket.value) in t.nodes)
    && (forall r :: r in cl.link.out && r.Delete? ==> cl.lock.closed)
    && (forall m :: m in cl.link.inn && (!cl.lock.closed || m.CreateReply?) ==> Mild(cl, m))
  }

  ghost predicate Peaceful(s: System) {
    Tidy(s.folder, s.tree, s.issued) && forall c :: c in s.clients ==> Benign(s.folder, s.tree, s.clients[c])
  }

  // ----- names

  lemma LockNameIsValid(k: nat)
    ensures IsValidSequenceNode(LockName(k))
  {
    TrailingDigitsOfPad("lock", k, SEQUENCE_DIGITS);
  }

  lemma PathsAreValid(folder: string, k: nat)
    requires ValidPath(folder)
    ensures ValidPath(LockPath(folder)) && ValidPath(LockNode(folder, k))
  {
    LockNodeIsChild(folder, k);
  }

  lemma NewNameIsFree(folder: string, t: Tree, issued: set<nat>)
    requires Tidy(folder, t, issued) && Numbered(issued, t.counter) && t.counter <= MAX_SEQUENCE
    ensures CreateCode(t, LockNode(folder, t.counter)).Ok?
  {
    var name := LockName(t.counter);
    LockNodeIsChild(folder, t.counter);
    ChildNamesAreChildren(t, folder, name);
    ParentOfJoin(folder, name);
    if name in ChildNames(t, folder) {
      var k :| k in issued && name == LockName(k);
      LockNodeOrder(folder, k, t.counter);
    }
  }

  lemma LaterIsNotBelow(folder: string, k: nat, n: nat)
    requires k < n <= MAX_SEQUENCE
    ensures LockNode(folder, n) != LockNode(folder, k) && !IsBelow(folder, k, LockNode(folder, n))
  {
    LockNodeIsChild(folder, n);
    LockNodeOrder(folder, n, k);
    assert Join(folder, LockName(n))[|folder| + 1..] == LockName(n);
  }

  /** Nobody watches a number before it is given out. */
  lemma NewNameIsUnwatched(folder: string, issued: set<nat>, n: nat, cl: Client)
    requires Shape(folder, cl) && Numbered(issued, n) && n <= MAX_SEQUENCE
    requires cl.ticket.Some? ==> cl.ticket.value in issued
    ensures LockNode(folder, n) !in cl.link.watches
  {
    if cl.lock.created != "" {
      LaterIsNotBelow(folder, cl.ticket.value, n);
    }
  }

  lemma ChildIsInside(folder: string, name: string)
    ensures !Elsewhere(folder, Join(folder, name))
  {
    assert Join(folder, name) == Join(folder, "") + name;
  }

  /** What is watched lies in the folder. */
  lemma ElsewhereIsUnwatched(folder: string, path: string, cl: Client)
    requires Shape(folder, cl) && Elsewhere(folder, path)
    ensures path !in cl.link.watches
  {
    if cl.lock.created != "" {
      LockNodeIsChild(folder, cl.ticket.value);
      ChildIsInside(folder, LockName(cl.ticket.value));
      if IsBelow(folder, cl.ticket.value, path) {
        ChildIsInside(folder, path[|folder| + 1..]);
      }
    }
  }

  // ----- one client

  lemma BenignTold(folder: string, t: Tree, t': Tree, cl: Client, change: Change)
    requires Benign(folder, t, cl)
    requires cl.ticket.Some? && !cl.lock.closed ==> LockNode(folder, cl.ticket.value) in t'.nodes
    requires change.Fired? && change.path in cl.link.watches ==> change.kind.Deleted?
    ensures Benign(folder, t', Told(cl, change))
  {
    if change.Fired? {
      EventsSpec(cl.link.watches, change.kind, change.path);
    }
  }

  lemma BenignAnswered(folder: string, t: Tree, cl: Client, o: Outcome)
    requires cl.link.out != [] && Benign(folder, t, Told(cl, o.change))
    requires !cl.lock.closed || o.reply.CreateReply? ==> Mild(cl, o.reply)
    ensures Benign(folder, t, cl.(link := Answer(cl.link, o)))
  {
  }

  /** What a client in the queue asks for can be had. */
  lemma QueueAnswerIsMild(folder: string, t: Tree, issued: set<nat>, cl: Client, listing: seq<string>)
    requires Tidy(folder, t, issued) && Shape(folder, cl) && Benign(folder, t, cl) && !cl.lock.closed
    requires cl.lock.created != "" && cl.link.out != [] && ListingFor(t, cl.link.out[0], listing)
    ensures var o := Perform(t, cl.link.out[0], listing); Mild(cl, o.reply) && o.change.Silent? && o.tree == t
  {
    var r := cl.link.out[0];
    assert QueueRequest(folder, cl.lock, cl.ticket.value, r);
    LockNodeIsChild(folder, cl.ticket.value);
    if r.Children? {
      ChildNamesAreChildren(t, folder, LockName(cl.ticket.value));
      forall n | n in listing
        ensures IsValidSequenceNode(n)
      {
        var k :| k in issued && n == LockName(k);
        LockNameIsValid(k);
      }
    }
  }

  lemma PlaceNeverFails(l: Lock, place: Place, net: Net)
    requires Up(net) && !place.Missing? && (place.After? ==> IsValidSequenceNode(place.name))
    requires ValidPath(l.folder) && ValidPath(l.created)
    ensures var r := OnPlace(l, place, net);
      r.lock.failures == l.failures && r.lock.depth == l.depth && r.lock.closed == l.closed
      && forall q :: q in r.sent ==> !q.Delete?
  {
  }

  lemma ListingNeverFails(folder: string, cl: Client, children: seq<string>, net: Net)
    requires Up(net) && ValidPath(folder) && Shape(folder, cl) && cl.lock.created != "" && !cl.lock.closed
    requires Mild(cl, ChildrenReply(Ok, children))
    ensures var r := OnChildren(cl.lock, Ok, children, net);
      r.lock.failures == cl.lock.failures && r.lock.depth == cl.lock.depth && !r.lock.closed
      && forall q :: q in r.sent ==> !q.Delete?
  {
    var name := LockName(cl.ticket.value);
    LockNodeIsChild(folder, cl.ticket.value);
    PathsAreValid(folder, cl.ticket.value);
    PlaceFound(children, name);
    if PlaceOf(children, name).After? {
      PlaceAfter(children, name);
    }
    PlaceNeverFails(cl.lock, PlaceOf(children, name), net);
  }

  /** A closed client never tells anything more. */
  lemma ClosedNeverFails(l: Lock, m: Message, net: Net)
    requires l.closed && (m.CreateReply? ==> m.rc.Ok? && l.depth == 0)
    ensures var r := OnMessage(l, m, net); r.lock.closed && r.lock.failures == l.failures && r.lock.depth == l.depth
  {
    if m.ChildrenReply? && m.rc.Ok? && NodeName(l.created).Some? {
      ClosedPlace(l, PlaceOf(m.children, NodeName(l.created).value), net);
    }
  }

  lemma ClosedPlace(l: Lock, place: Place, net: Net)
    requires l.closed
    ensures var r := OnPlace(l, place, net); r.lock.closed && r.lock.failures == l.failures && r.lock.depth == l.depth
  {
  }

  /** An open client survives every mild message. */
  lemma OpenNeverFails(folder: string, cl: Client, net: Net)
    requires Up(net) && ValidPath(folder) && Shape(folder, cl) && !cl.lock.closed && cl.lock.depth == 0
    requires cl.link.inn != [] && Mild(cl, cl.link.inn[0])
    ensures var r := OnMessage(cl.lock, cl.link.inn[0], net);
      && r.lock.failures == cl.lock.failures && r.lock.depth == 0 && !r.lock.closed
      && forall q :: q in r.sent ==> !q.Delete?
  {
    var m := cl.link.inn[0];
    if m.ChildrenReply? {
      assert cl.lock.created != "";
      ListingNeverFails(folder, cl, m.children, net);
    } else if m.CreateReply? {
      PathsAreValid(folder, 0);
    }
  }

  lemma BenignHandled(folder: string, t: Tree, cl: Client, net: Net)
    requires Up(net) && ValidPath(folder) && Shape(folder, cl) && Benign(folder, t, cl) && cl.link.inn != []
    ensures Benign(folder, t, Handled(cl, net))
  {
    var m := cl.link.inn[0];
    if cl.lock.closed {
      ClosedNeverFails(cl.lock, m, net);
    } else {
      OpenNeverFails(folder, cl, net);
    }
  }

  lemma BenignClosed(folder: string, t: Tree, cl: Client, up: bool)
    requires Benign(folder, t, cl)
    ensures Benign(folder, t, React(cl, Close(cl.lock, up)))
  {
  }

  lemma BenignStarted(folder: string, t: Tree, value: Value, net: Net)
    requires Up(net) && ValidPath(folder)
    ensures var r := Run(folder, value, net); Benign(folder, t, Client(r.lock, Link(r.sent, [], []), None))
  {
    PathsAreValid(folder, 0);
  }

  // ----- all of them

  /** Everybody else is told, and the caller is answered. */
  ghost predicate Rejoins(s: System, c: nat, o: Outcome, issued: set<nat>)
    requires c in s.clients && s.clients[c].link.out != []
  {
    && Tidy(s.folder, o.tree, issued)
    && (forall d :: d in s.clients && d != c ==> Benign(s.folder, o.tree, Told(s.clients[d], o.change)))
    && Benign(s.folder, o.tree, Served(s.clients[c], o, s.tree.counter))
  }

  lemma NewNodeIsTidy(folder: string, t: Tree, issued: set<nat>, value: Value)
    requires Tidy(folder, t, issued)
    ensures var node := LockNode(folder, t.counter);
      Tidy(folder, WithNode(t, node, value).(counter := t.counter + 1), issued + {t.counter})
  {
    var t' := WithNode(t, LockNode(folder, t.counter), value).(counter := t.counter + 1);
    LockNodeIsChild(folder, t.counter);
    forall n | n in ChildNames(t', folder)
      ensures exists k :: k in issued + {t.counter} && n == LockName(k)
    {
      ChildNamesAreChildren(t', folder, n);
      ChildNamesAreChildren(t, folder, n);
      JoinInjective(folder, n, LockName(t.counter));
      if n in ChildNames(t, folder) {
        var k :| k in issued && n == LockName(k);
        assert k in issued + {t.counter};
      } else {
        assert t.counter in issued + {t.counter};
      }
    }
  }

  /** A client that is about to enter asks for its node, and gets it. */
  lemma EntryIsGranted(folder: string, t: Tree, issued: set<nat>, cl: Client, listing: seq<string>)
    requires Tidy(folder, t, issued) && Numbered(issued, t.counter) && t.counter <= MAX_SEQUENCE
    requires Shape(folder, cl) && Benign(folder, t, cl) && cl.lock.created == "" && cl.link.out != []
    ensures var node := LockNode(folder, t.counter);
      && cl.link == Link([Create(LockPath(folder), cl.lock.value, true, true)], [], [])
      && Perform(t, cl.link.out[0], listing)
         == Outcome(WithNode(t, node, cl.lock.value).(counter := t.counter + 1), Fired(Created, node),
                    CreateReply(Ok, node), None)
  {
    NewNameIsFree(folder, t, issued);
  }

  lemma EnteredIsBenign(folder: string, t: Tree, cl: Client, o: Outcome, counter: nat)
    requires Benign(folder, t, cl) && cl.link == Link([Create(LockPath(folder), cl.lock.value, true, true)], [], [])
    requires o.change == Fired(Created, LockNode(folder, counter)) && o.watch.None?
    requires o.reply == CreateReply(Ok, LockNode(folder, counter)) && LockNode(folder, counter) in o.tree.nodes
    ensures Benign(folder, o.tree, Served(cl, o, counter))
  {
    assert Answer(cl.link, o) == Link([], [o.reply], []);
  }

  lemma EntryRejoins(s: System, c: nat, o: Outcome)
    requires Inv(s) && Peaceful(s) && c in s.clients && s.tree.counter <= MAX_SEQUENCE
    requires s.clients[c].link == Link([Create(LockPath(s.folder), s.clients[c].lock.value, true, true)], [], [])
    requires o.change == Fired(Created, LockNode(s.folder, s.tree.counter)) && o.watch.None?
    requires o.reply == CreateReply(Ok, LockNode(s.folder, s.tree.counter))
    requires LockNode(s.folder, s.tree.counter) in o.tree.nodes && forall p :: p in s.tree.nodes ==> p in o.tree.nodes
    requires Tidy(s.folder, o.tree, s.issued + {s.tree.counter})
    ensures Rejoins(s, c, o, s.issued + {s.tree.counter})
  {
    forall d | d in s.clients && d != c
      ensures Benign(s.folder, o.tree, Told(s.clients[d], o.change))
    {
      EntryIsUnnoticed(s, d, o.tree);
    }
    assert Benign(s.folder, s.tree, s.clients[c]);
    EnteredIsBenign(s.folder, s.tree, s.clients[c], o, s.tree.counter);
  }

  /** The outcome of a request to enter. */
  predicate Enters(s: System, c: nat, o: Outcome)
    requires c in s.clients
  {
    var node := LockNode(s.folder, s.tree.counter);
    && s.tree.counter <= MAX_SEQUENCE
    && s.clients[c].link == Link([Create(LockPath(s.folder), s.clients[c].lock.value, true, true)], [], [])
    && o.tree == WithNode(s.tree, node, s.clients[c].lock.value).(counter := s.tree.counter + 1)
    && o.change == Fired(Created, node) && o.reply == CreateReply(Ok, node) && o.watch.None?
  }

  lemma EnteringAsks(s: System, c: nat, listing: seq<string>)
    requires Inv(s) && Peaceful(s) && Enabled(s, ServeNext(c, listing, Answered)) && s.clients[c].lock.created == ""
    ensures Enters(s, c, Perform(s.tree, s.clients[c].link.out[0], listing))
  {
    var cl := s.clients[c];
    assert Good(s.folder, s.tree, s.issued, cl) && Benign(s.folder, s.tree, cl);
    assert cl.link.out[0].sequence;
    EntryIsGranted(s.folder, s.tree, s.issued, cl, listing);
  }

  lemma CreatingRejoins(s: System, c: nat, o: Outcome)
    requires Inv(s) && Peaceful(s) && c in s.clients && Enters(s, c, o)
    ensures Rejoins(s, c, o, s.issued + {s.tree.counter}) && TakesTicket(s.clients[c].link.out[0], o.change)
  {
    NewNodeIsTidy(s.folder, s.tree, s.issued, s.clients[c].lock.value);
    EntryRejoins(s, c, o);
  }

  lemma EntryIsUnnoticed(s: System, d: nat, t': Tree)
    requires Inv(s) && Peaceful(s) && d in s.clients && s.tree.counter <= MAX_SEQUENCE
    requires forall p :: p in s.tree.nodes ==> p in t'.nodes
    ensures Benign(s.folder, t', Told(s.clients[d], Fired(Created, LockNode(s.folder, s.tree.counter))))
  {
    assert Good(s.folder, s.tree, s.issued, s.clients[d]) && Benign(s.folder, s.tree, s.clients[d]);
    NewNameIsUnwatched(s.folder, s.issued, s.tree.counter, s.clients[d]);
    BenignTold(s.folder, s.tree, t', s.clients[d], Fired(Created, LockNode(s.folder, s.tree.counter)));
  }

  lemma OpenRejoins(s: System, c: nat, listing: seq<string>)
    requires Inv(s) && Peaceful(s) && Enabled(s, ServeNext(c, listing, Answered))
    requires s.clients[c].lock.created != "" && !s.clients[c].lock.closed
    ensures var o := Perform(s.tree, s.clients[c].link.out[0], listing); Rejoins(s, c, o, s.issued) && o.change.Silent?
  {
    var cl := s.clients[c];
    assert Good(s.folder, s.tree, s.issued, cl) && Benign(s.folder, s.tree, cl);
    QueueAnswerIsMild(s.folder, s.tree, s.issued, cl, listing);
    BenignAnswered(s.folder, s.tree, cl, Perform(s.tree, cl.link.out[0], listing));
  }

  lemma WithoutNodeIsTidy(folder: string, t: Tree, issued: set<nat>, path: string)
    requires Tidy(folder, t, issued) && path != folder
    ensures Tidy(folder, WithoutNode(t, path), issued)
  {
    forall n | n in ChildNames(WithoutNode(t, path), folder)
      ensures n in ChildNames(t, folder)
    {
      ChildNamesAreChildren(t, folder, n);
      ChildNamesAreChildren(WithoutNode(t, path), folder, n);
    }
  }

  /** What a closed client's request can still change: its own node goes. */
  lemma ClosedChanges(folder: string, t: Tree, cl: Client, listing: seq<string>)
    requires Shape(folder, cl) && cl.lock.created != "" && cl.link.out != []
    ensures var o := Perform(t, cl.link.out[0], listing);
      && !o.reply.CreateReply?
      && (|| (o.change.Silent? && o.tree == t)
          || (o.change == Fired(Deleted, cl.lock.created) && o.tree == WithoutNode(t, cl.lock.created)))
  {
    assert QueueRequest(folder, cl.lock, cl.ticket.value, cl.link.out[0]);
  }

  lemma ClosedRejoins(s: System, c: nat, listing: seq<string>)
    requires Inv(s) && Peaceful(s) && Enabled(s, ServeNext(c, listing, Answered))
    requires s.clients[c].lock.created != "" && s.clients[c].lock.closed
    ensures var o := Perform(s.tree, s.clients[c].link.out[0], listing);
      Rejoins(s, c, o, s.issued) && !TakesTicket(s.clients[c].link.out[0], o.change)
  {
    var cl := s.clients[c];
    assert Good(s.folder, s.tree, s.issued, cl) && Benign(s.folder, s.tree, cl);
    var o := Perform(s.tree, cl.link.out[0], listing);
    ClosedChanges(s.folder, s.tree, cl, listing);
    LockNodeIsChild(s.folder, cl.ticket.value);
    WithoutNodeIsTidy(s.folder, s.tree, s.issued, cl.lock.created);
    forall d | d in s.clients && d != c
      ensures Benign(s.folder, o.tree, Told(s.clients[d], o.change))
    {
      OtherNodeStays(s, c, d);
      BenignTold(s.folder, s.tree, o.tree, s.clients[d], o.change);
    }
    BenignTold(s.folder, s.tree, o.tree, cl, o.change);
    BenignAnswered(s.folder, o.tree, cl, o);
    assert QueueRequest(s.folder, cl.lock, cl.ticket.value, cl.link.out[0]);
  }

  lemma OtherNodeStays(s: System, c: nat, d: nat)
    requires Inv(s) && c in s.clients && d in s.clients && c != d
    requires s.clients[c].ticket.Some?
    ensures s.clients[d].ticket.Some? ==>
      LockNode(s.folder, s.clients[d].ticket.value) != LockNode(s.folder, s.clients[c].ticket.value)
  {
    assert Good(s.folder, s.tree, s.issued, s.clients[c]) && Good(s.folder, s.tree, s.issued, s.clients[d]);
    if s.clients[d].ticket.Some? {
      LockNodeOrder(s.folder, s.clients[c].ticket.value, s.clients[d].ticket.value);
    }
  }

  lemma ServeKeepsPeace(s: System, c: nat, listing: seq<string>)
    requires Inv(s) && Peaceful(s) && Enabled(s, ServeNext(c, listing, Answered))
    ensures Peaceful(Next(s, ServeNext(c, listing, Answered)))
  {
    if s.clients[c].lock.created == "" {
      EnteringAsks(s, c, listing);
      CreatingRejoins(s, c, Perform(s.tree, s.clients[c].link.out[0], listing));
    } else if s.clients[c].lock.closed {
      ClosedRejoins(s, c, listing);
    } else {
      OpenRejoins(s, c, listing);
    }
  }

  lemma ElsewhereKeepsTidy(folder: string, t: Tree, t': Tree, issued: set<nat>, path: string)
    requires Tidy(folder, t, issued) && Elsewhere(folder, path)
    requires forall p :: p != path ==> (p in t'.nodes <==> p in t.nodes)
    ensures Tidy(folder, t', issued)
  {
    forall n | n in ChildNames(t', folder)
      ensures n in ChildNames(t, folder)
    {
      ChildNamesAreChildren(t, folder, n);
      ChildNamesAreChildren(t', folder, n);
      ChildIsInside(folder, n);
    }
  }

  lemma OthersKeepPeace(s: System, t': Tree, change: Change)
    requires Inv(s) && Peaceful(s) && change.Fired? && Elsewhere(s.folder, change.path)
    requires forall p :: p != change.path ==> (p in t'.nodes <==> p in s.tree.nodes)
    ensures Peaceful(Others(s, t', change))
  {
    ElsewhereKeepsTidy(s.folder, s.tree, t', s.issued, change.path);
    forall c | c in s.clients
      ensures Benign(s.folder, t', Told(s.clients[c], change))
    {
      var cl := s.clients[c];
      assert Good(s.folder, s.tree, s.issued, cl) && Benign(s.folder, s.tree, cl);
      ElsewhereIsUnwatched(s.folder, change.path, cl);
      if cl.ticket.Some? {
        LockNodeIsChild(s.folder, cl.ticket.value);
        ChildIsInside(s.folder, LockName(cl.ticket.value));
      }
      BenignTold(s.folder, s.tree, t', cl, change);
    }
  }

  lemma ClientKeepsPeace(s: System, c: nat, cl: Client)
    requires Peaceful(s) && Benign(s.folder, s.tree, cl)
    ensures Peaceful(s.(clients := s.clients[c := cl]))
  {
  }

  lemma StepKeepsPeace(s: System, step: Step)
    requires Inv(s) && Peaceful(s) && Enabled(s, step) && Calm(s, step)
    ensures Peaceful(Next(s, step))
  {
    match step {
      case Start(c, value, net) =>
        BenignStarted(s.folder, s.tree, value, net);
        var r := Run(s.folder, value, net);
        ClientKeepsPeace(s, c, Client(r.lock, Link(r.sent, [], []), None));
      case ServeNext(c, listing, _) => ServeKeepsPeace(s, c, listing);
      case Deliver(c, net) =>
        assert Good(s.folder, s.tree, s.issued, s.clients[c]);
        BenignHandled(s.folder, s.tree, s.clients[c], net);
        ClientKeepsPeace(s, c, Handled(s.clients[c], net));
      case CloseLock(c, up) =>
        BenignClosed(s.folder, s.tree, s.clients[c], up);
        ClientKeepsPeace(s, c, React(s.clients[c], Close(s.clients[c].lock, up)));
      case OthersCreate(path, value) => OthersKeepPeace(s, WithNode(s.tree, path, value), Fired(Created, path));
      case OthersPut(path, value) => OthersKeepPeace(s, WithValue(s.tree, path, value), Fired(Changed, path));
      case OthersDelete(path) => OthersKeepPeace(s, WithoutNode(s.tree, path), Fired(Deleted, path));
      case OthersCount(counter) => CountKeepsPeace(s, counter);
    }
  }

  lemma CountKeepsPeace(s: System, counter: nat)
    requires Peaceful(s)
    ensures Peaceful(s.(tree := s.tree.(counter := counter)))
  {
    assert ChildNames(s.tree.(counter := counter), s.folder) == ChildNames(s.tree, s.folder);
  }

  lemma {:induction false} CalmRunsKeepPeace(s0: System, steps: seq<Step>, s: System)
    requires Inv(s0) && Peaceful(s0) && CalmRun(s0, steps, s)
    ensures Inv(s) && Peaceful(s)
    decreases |steps|
  {
    if steps != [] {
      StepKeepsInv(s0, steps[0]);
      StepKeepsPeace(s0, steps[0]);
      CalmRunsKeepPeace(Next(s0, steps[0]), steps[1..], s);
    }
  }

  /** In every run in an empty folder in which requests are answered, submissions accepted, the
      session lives and others keep out of the folder, no client is ever told a failure, and
      every open client that has a number has its node. */
  lemma {:induction false} NoFailureWithoutCause(s0: System, steps: seq<Step>, s: System, c: nat)
    requires Initial(s0) && CalmRun(s0, steps, s) && c in s.clients
    requires ValidPath(s0.folder) && s0.folder in s0.tree.nodes && ChildNames(s0.tree, s0.folder) == {}
    ensures s.clients[c].lock.failures == 0
    ensures s.clients[c].ticket.Some? && !s.clients[c].lock.closed ==>
              LockNode(s.folder, s.clients[c].ticket.value) in s.tree.nodes
  {
    CalmRunsKeepPeace(s0, steps, s);
    assert Benign(s.folder, s.tree, s.clients[c]);
  }
}
