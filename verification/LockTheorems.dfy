/** The guarantees of the lock, over every run of any number of clients. */
module LockTheorems {
  import opened Wrappers
  import opened Paths
  import opened Server
  import opened LockRecipe
  import opened LockSystem
  import opened LockShape
  import opened LockExclusion
  import opened LockWaking
  import opened LockRelease
  import opened LockOnce

  ghost predicate Good(folder: string, t: Tree, issued: set<nat>, cl: Client) {
    && Shape(folder, cl)
    && Ordered(folder, t, issued, cl)
    && Waking(t, cl)
    && Released(t, cl)
    && Once(t, cl)
  }

  ghost predicate Inv(s: System) {
    && Numbered(s.issued, s.tree.counter)
    && (forall c :: c in s.clients ==> Good(s.folder, s.tree, s.issued, s.clients[c]))
    && OwnTickets(s.clients)
  }

  /** No number was given to two clients. */
  ghost predicate OwnTickets(clients: map<nat, Client>) {
    forall c, d :: c in clients && d in clients && c != d && clients[c].ticket.Some? ==>
      clients[c].ticket != clients[d].ticket
  }

  lemma NewTicket(clients: map<nat, Client>, c: nat, cl: Client)
    requires OwnTickets(clients) && forall d :: d in clients ==> clients[d].ticket != cl.ticket
    ensures OwnTickets(clients[c := cl])
  {
  }

  // ----- one client

  lemma GoodTold(folder: string, t: Tree, t': Tree, issued: set<nat>, cl: Client, change: Change)
    requires Good(folder, t, issued, cl) && Evolves(folder, issued, t, change, t')
    ensures Good(folder, t', issued, Told(cl, change))
  {
    ShapeTold(folder, cl, change);
    OrderedTold(folder, t, t', issued, cl, change);
    WakingTold(folder, issued, t, t', cl, change);
    ReleasedTold(folder, issued, t, t', cl, change);
    OnceTold(folder, issued, t, t', cl, change);
  }

  lemma GoodIssued(folder: string, t: Tree, issued: set<nat>, n: nat, cl: Client)
    requires Good(folder, t, issued, cl) && Numbered(issued, n)
    ensures Good(folder, t, issued + {n}, cl)
  {
    OrderedIssued(folder, t, issued, n, cl);
  }

  lemma GoodHandled(folder: string, t: Tree, issued: set<nat>, cl: Client, net: Net)
    requires Good(folder, t, issued, cl) && cl.link.inn != [] && Numbered(issued, t.counter)
    ensures Good(folder, t, issued, Handled(cl, net))
  {
    ShapeHandled(folder, cl, net);
    OrderedHandled(folder, t, issued, cl, net);
    WakingHandled(folder, t, cl, net);
    ReleasedHandled(folder, t, cl, net);
    OnceHandled(folder, t, cl, net);
  }

  lemma GoodInterrupted(folder: string, t: Tree, issued: set<nat>, cl: Client, up: bool, connected: bool, net: Net)
    requires Good(folder, t, issued, cl)
    ensures Good(folder, t, issued, React(cl, Close(cl.lock, up)))
    ensures Good(folder, t, issued, React(cl, OnEvent(cl.lock, Session(connected), net)))
  {
    ShapeInterrupted(folder, cl, up, connected, net);
    OrderedInterrupted(folder, t, issued, cl, up, connected, net);
    WakingInterrupted(t, cl, up, connected, net);
    ReleasedInterrupted(folder, t, cl, up, connected, net);
    OnceInterrupted(t, cl, up, connected, net);
  }

  lemma GoodServed(folder: string, t: Tree, issued: set<nat>, cl: Client, listing: seq<string>, fate: Fate)
    requires Good(folder, t, issued, cl) && cl.link.out != [] && Numbered(issued, t.counter)
    requires ListingFor(t, cl.link.out[0], listing)
    requires cl.link.out[0].Create? && cl.link.out[0].sequence ==> t.counter <= MAX_SEQUENCE
    ensures var r := cl.link.out[0];
            var o := Serve(t, r, listing, fate);
            Good(folder, o.tree, if TakesTicket(r, o.change) then issued + {t.counter} else issued,
                 Served(cl, o, t.counter))
  {
    ShapeServed(folder, t, cl, listing, fate);
    OrderedServed(folder, t, issued, cl, listing, fate);
    WakingServed(folder, issued, t, cl, listing, fate);
    ReleasedServed(folder, issued, t, cl, listing, fate);
    OnceServed(folder, issued, t, cl, listing, fate);
  }

  // ----- one step

  lemma OthersKeepInv(s: System, tree: Tree, change: Change)
    requires Inv(s) && tree.counter == s.tree.counter && Evolves(s.folder, s.issued, s.tree, change, tree)
    ensures Inv(Others(s, tree, change))
  {
    forall c | c in s.clients
      ensures Good(s.folder, tree, s.issued, Told(s.clients[c], change))
    {
      GoodTold(s.folder, s.tree, tree, s.issued, s.clients[c], change);
    }
  }

  lemma CounterAfter(t: Tree, r: Request, listing: seq<string>, fate: Fate)
    ensures var o := Serve(t, r, listing, fate);
            o.tree.counter == if TakesTicket(r, o.change) then t.counter + 1 else t.counter
  {
  }

  /** Everybody is told about the change; the answer to the caller comes separately. */
  lemma ServeTellsAll(s: System, c: nat, listing: seq<string>, fate: Fate)
    requires Inv(s) && Enabled(s, ServeNext(c, listing, fate))
    ensures var o := OutcomeOf(s, s.clients[c], listing, fate);
            Inv(Others(s, o.tree.(counter := s.tree.counter), o.change))
  {
    var o := OutcomeOf(s, s.clients[c], listing, fate);
    assert Good(s.folder, s.tree, s.issued, s.clients[c]);
    ServeEvolves(s.folder, s.issued, s.tree, s.clients[c], listing, fate);
    var tree := o.tree.(counter := s.tree.counter);
    assert Evolves(s.folder, s.issued, s.tree, o.change, tree);
    OthersKeepInv(s, tree, o.change);
  }

  /** A client served without a new number rejoins the others. */
  lemma ServedKept(s: System, c: nat, o: Outcome, served: Client)
    requires c in s.clients && Inv(Others(s, o.tree, o.change))
    requires served.ticket == s.clients[c].ticket && Good(s.folder, o.tree, s.issued, served)
    ensures Inv(System(s.folder, o.tree, s.issued, TellAll(s.clients, o.change)[c := served]))
  {
    ClientKeepsInv(Others(s, o.tree, o.change), c, served);
  }

  /** And so does one served with the next number. */
  lemma ServedTook(s: System, c: nat, o: Outcome, served: Client)
    requires s.tree.counter <= MAX_SEQUENCE && o.tree.counter == s.tree.counter + 1
    requires c in s.clients && Inv(Others(s, o.tree.(counter := s.tree.counter), o.change))
    requires served.ticket == Some(s.tree.counter)
    requires Good(s.folder, o.tree, s.issued + {s.tree.counter}, served)
    ensures Inv(System(s.folder, o.tree, s.issued + {s.tree.counter}, TellAll(s.clients, o.change)[c := served]))
  {
    var told := Others(s, o.tree.(counter := s.tree.counter), o.change);
    assert told.tree.(counter := s.tree.counter + 1) == o.tree;
    TicketTaken(told, c, served);
  }

  lemma ServeKeepsInv(s: System, c: nat, listing: seq<string>, fate: Fate)
    requires Inv(s) && Enabled(s, ServeNext(c, listing, fate))
    ensures Inv(Next(s, ServeNext(c, listing, fate)))
  {
    var cl := s.clients[c];
    assert Good(s.folder, s.tree, s.issued, cl);
    ServeTellsAll(s, c, listing, fate);
    GoodServed(s.folder, s.tree, s.issued, cl, listing, fate);
    CounterAfter(s.tree, cl.link.out[0], listing, fate);
    var o := OutcomeOf(s, cl, listing, fate);
    if TakesTicket(cl.link.out[0], o.change) {
      ServedTook(s, c, o, Served(cl, o, s.tree.counter));
    } else {
      assert o.tree.(counter := s.tree.counter) == o.tree;
      ServedKept(s, c, o, Served(cl, o, s.tree.counter));
    }
  }

  lemma TicketTaken(s: System, c: nat, cl: Client)
    requires Inv(s) && c in s.clients && s.tree.counter <= MAX_SEQUENCE
    requires var n := s.tree.counter;
             cl.ticket == Some(n) && Good(s.folder, s.tree.(counter := n + 1), s.issued + {n}, cl)
    ensures var n := s.tree.counter;
            Inv(System(s.folder, s.tree.(counter := n + 1), s.issued + {n}, s.clients[c := cl]))
  {
    var n := s.tree.counter;
    forall d | d in s.clients
      ensures Good(s.folder, s.tree.(counter := n + 1), s.issued + {n}, s.clients[d])
      ensures s.clients[d].ticket != Some(n)
    {
      GoodAfterTicket(s.folder, s.tree, s.issued, s.clients[d]);
    }
    NewTicket(s.clients, c, cl);
  }

  lemma GoodAfterTicket(folder: string, t: Tree, issued: set<nat>, cl: Client)
    requires Good(folder, t, issued, cl) && Numbered(issued, t.counter)
    ensures Good(folder, t.(counter := t.counter + 1), issued + {t.counter}, cl) && cl.ticket != Some(t.counter)
  {
    GoodIssued(folder, t, issued, t.counter, cl);
    GoodRecounted(folder, t, t.counter + 1, issued + {t.counter}, cl);
  }

  /** The counter itself plays no part in what a client satisfies. */
  lemma GoodRecounted(folder: string, t: Tree, counter: nat, issued: set<nat>, cl: Client)
    requires Good(folder, t, issued, cl)
    ensures Good(folder, t.(counter := counter), issued, cl)
  {
  }

  lemma ClientKeepsInv(s: System, c: nat, cl: Client)
    requires Inv(s) && Good(s.folder, s.tree, s.issued, cl)
    requires cl.ticket.None? || (c in s.clients && cl.ticket == s.clients[c].ticket)
    ensures Inv(s.(clients := s.clients[c := cl]))
  {
  }

  lemma StepKeepsInv(s: System, step: Step)
    requires Inv(s) && Enabled(s, step)
    ensures Inv(Next(s, step))
  {
    match step {
      case Start(c, value, net) =>
        ShapeStarted(s.folder, value, net);
        var r := Run(s.folder, value, net);
        ClientKeepsInv(s, c, Client(r.lock, Link(r.sent, [], []), None));
      case ServeNext(c, listing, fate) => ServeKeepsInv(s, c, listing, fate);
      case Deliver(c, net) =>
        GoodHandled(s.folder, s.tree, s.issued, s.clients[c], net);
        ClientKeepsInv(s, c, Handled(s.clients[c], net));
      case CloseLock(c, up) =>
        GoodInterrupted(s.folder, s.tree, s.issued, s.clients[c], up, true, UP);
        ClientKeepsInv(s, c, React(s.clients[c], Close(s.clients[c].lock, up)));
      case SessionEvent(c, connected, net) =>
        GoodInterrupted(s.folder, s.tree, s.issued, s.clients[c], true, connected, net);
        ClientKeepsInv(s, c, React(s.clients[c], OnEvent(s.clients[c].lock, Session(connected), net)));
      case OthersCreate(path, value) => OthersKeepInv(s, WithNode(s.tree, path, value), Fired(Created, path));
      case OthersPut(path, value) => OthersKeepInv(s, WithValue(s.tree, path, value), Fired(Changed, path));
      case OthersDelete(path) => OthersKeepInv(s, WithoutNode(s.tree, path), Fired(Deleted, path));
      case OthersCount(counter) =>
        forall c | c in s.clients
          ensures Good(s.folder, s.tree.(counter := counter), s.issued, s.clients[c])
        {
          GoodRecounted(s.folder, s.tree, counter, s.issued, s.clients[c]);
        }
    }
  }

  lemma {:induction false} RunsKeepInv(s0: System, steps: seq<Step>, s: System)
    requires Inv(s0) && Runs(s0, steps, s)
    ensures Inv(s)
    decreases |steps|
  {
    if steps != [] {
      StepKeepsInv(s0, steps[0]);
      RunsKeepInv(Next(s0, steps[0]), steps[1..], s);
    }
  }

  // ----- the guarantees

  predicate Idle(cl: Client) {
    cl.link.out == [] && cl.link.inn == []
  }

  /** Two clients that were both granted the lock and whose nodes both still exist are the
      same client, in every reachable state of any number of clients. */
  lemma MutualExclusion(s0: System, steps: seq<Step>, s: System, c: nat, d: nat)
    requires Initial(s0) && Runs(s0, steps, s)
    requires c in s.clients && s.clients[c].lock.grants > 0 && s.clients[c].lock.created in s.tree.nodes
    requires d in s.clients && s.clients[d].lock.grants > 0 && s.clients[d].lock.created in s.tree.nodes
    ensures c == d
  {
    RunsKeepInv(s0, steps, s);
    var x, y := s.clients[c], s.clients[d];
    assert Good(s.folder, s.tree, s.issued, x) && Good(s.folder, s.tree, s.issued, y);
  }

  /** Once nothing is in flight for an open client, its own node exists and is watched, and
      unless it was granted it watches an existing node that sorts before its own. */
  lemma NoLostWakeUp(s0: System, steps: seq<Step>, s: System, c: nat)
    requires Initial(s0) && Runs(s0, steps, s)
    requires c in s.clients && Idle(s.clients[c]) && !s.clients[c].lock.closed
    ensures var cl := s.clients[c];
            && cl.lock.created != "" && cl.lock.created in s.tree.nodes && cl.lock.created in cl.link.watches
            && cl.ticket.Some?
            && (cl.lock.grants == 1 ||
                (&& cl.lock.prev in s.tree.nodes && cl.lock.prev in cl.link.watches
                 && IsBelow(s.folder, cl.ticket.value, cl.lock.prev)))
  {
    RunsKeepInv(s0, steps, s);
    assert Good(s.folder, s.tree, s.issued, s.clients[c]);
    if s.clients[c].lock.grants == 0 {
      assert Watched(s.tree, s.clients[c].link, s.clients[c].lock.prev);
    }
  }

  /** The callback sees at most one grant and at most one failure; once nothing is in flight,
      a closed lock's node is gone or a reconnect was forced. */
  lemma ReleasedWhenClosed(s0: System, steps: seq<Step>, s: System, c: nat)
    requires Initial(s0) && Runs(s0, steps, s) && c in s.clients
    ensures s.clients[c].lock.grants <= 1 && s.clients[c].lock.failures <= 1
    ensures var l := s.clients[c].lock;
            Idle(s.clients[c]) && l.closed && l.created != "" ==> l.created !in s.tree.nodes || l.reconnects > 0
  {
    RunsKeepInv(s0, steps, s);
    assert Good(s.folder, s.tree, s.issued, s.clients[c]);
  }

  /** Everything below the folder is the node of some open client. */
  ghost predicate OnlyOpenClients(s: System) {
    forall p :: p in s.tree.nodes && Join(s.folder, "") < p ==>
      exists c :: c in s.clients && !s.clients[c].lock.closed && s.clients[c].lock.created == p
  }

  function TicketOf(cl: Client): nat {
    if cl.ticket.Some? then cl.ticket.value else 0
  }

  lemma {:induction false} SomebodyAhead(s: System, c: nat) returns (d: nat)
    requires Inv(s) && OnlyOpenClients(s) && forall e :: e in s.clients ==> Idle(s.clients[e])
    requires c in s.clients && !s.clients[c].lock.closed
    ensures d in s.clients && s.clients[d].lock.grants > 0 && s.clients[d].lock.created in s.tree.nodes
    decreases TicketOf(s.clients[c])
  {
    var cl := s.clients[c];
    assert Good(s.folder, s.tree, s.issued, cl);
    if cl.lock.grants > 0 {
      d := c;
    } else {
      var p := cl.lock.prev;
      assert Watched(s.tree, cl.link, p);
      BelowIsDeeper(s.folder, cl.ticket.value, p);
      var e :| e in s.clients && !s.clients[e].lock.closed && s.clients[e].lock.created == p;
      var k := s.clients[e].ticket.value;
      assert Good(s.folder, s.tree, s.issued, s.clients[e]);
      LockNodeIsChild(s.folder, k);
      assert p[|s.folder| + 1..] == LockName(k);
      LockNodeOrder(s.folder, k, cl.ticket.value);
      d := SomebodyAhead(s, e);
    }
  }

  lemma BelowIsDeeper(folder: string, k: nat, p: string)
    requires IsBelow(folder, k, p)
    ensures Join(folder, "") < p
  {
    assert Join(folder, p[|folder| + 1..]) == Join(folder, "") + p[|folder| + 1..];
  }

  /** The queue never stalls: when nothing is in flight anywhere and the folder holds only
      nodes of open clients, one of the open clients holds the lock. */
  lemma NeverStalls(s0: System, steps: seq<Step>, s: System, c: nat) returns (holder: nat)
    requires Initial(s0) && Runs(s0, steps, s)
    requires OnlyOpenClients(s) && forall e :: e in s.clients ==> Idle(s.clients[e])
    requires c in s.clients && !s.clients[c].lock.closed
    ensures holder in s.clients && s.clients[holder].lock.grants == 1
    ensures s.clients[holder].lock.created in s.tree.nodes
    ensures forall d ::
              d in s.clients && s.clients[d].lock.grants > 0 && s.clients[d].lock.created in s.tree.nodes ==>
                d == holder
  {
    RunsKeepInv(s0, steps, s);
    holder := SomebodyAhead(s, c);
    assert Good(s.folder, s.tree, s.issued, s.clients[holder]);
    forall d | d in s.clients && s.clients[d].lock.grants > 0 && s.clients[d].lock.created in s.tree.nodes
      ensures d == holder
    {
      MutualExclusion(s0, steps, s, d, holder);
    }
  }
}
