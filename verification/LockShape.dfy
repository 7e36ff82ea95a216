/** The shape of a lock client is kept by everything that can happen to it. */
module LockShape {
  import opened Wrappers
  import opened Paths
  import opened Server
  import opened LockRecipe
  import opened LockSystem

  lemma LockNodeIsChild(folder: string, k: nat)
    ensures LockNode(folder, k) == Join(folder, LockName(k))
    ensures NoSlash(LockName(k)) && LockName(k) != ""
    ensures NodeName(LockNode(folder, k)) == Some(LockName(k))
    ensures LockNode(folder, k) != ""
  {
    var pad := Pad(k, SEQUENCE_DIGITS);
    assert LockPath(folder) + pad == folder + "/" + ("lock" + pad);
    NodeNameOfJoin(folder, LockName(k));
  }

  lemma BelowIsOther(folder: string, k: nat, p: string)
    requires IsBelow(folder, k, p)
    ensures p != LockNode(folder, k)
  {
    LockNodeIsChild(folder, k);
    JoinInjective(folder, p[|folder| + 1..], LockName(k));
    LessIsTotal(p[|folder| + 1..], LockName(k));
  }

  /** A client that has its node keeps its shape if its node, folder and ticket stay, and
      only fitting requests and messages are added. */
  lemma ShapeStaysQueued(folder: string, cl: Client, l: Lock, k: Link)
    requires Shape(folder, cl) && cl.lock.created != ""
    requires l.folder == folder && l.created == cl.lock.created
    requires l.failures <= 1 && (l.failures > 0 ==> l.closed) && (!l.closed ==> l.held)
    requires l.prev == cl.lock.prev || IsBelow(folder, cl.ticket.value, l.prev)
    requires forall r :: r in k.out ==> r in cl.link.out || QueueRequest(folder, l, cl.ticket.value, r)
    requires forall m :: m in k.inn ==> m in cl.link.inn || (!m.CreateReply? && !m.PutReply?)
    requires forall w :: w in k.watches ==>
               w in cl.link.watches || w == l.created || IsBelow(folder, cl.ticket.value, w)
    ensures Shape(folder, Client(l, k, cl.ticket))
  {
  }

  /** What a reaction to anything but a create reply can change and send. */
  predicate QueueReaction(l: Lock, r: Reaction) {
    && r.lock.folder == l.folder && r.lock.created == l.created
    && (r.lock.failures == l.failures || (!l.closed && r.lock.failures == l.failures + 1 && r.lock.closed))
    && (l.closed ==> r.lock.closed) && r.lock.reconnects >= l.reconnects
    && (!r.lock.closed ==> r.lock.held == l.held)
    && forall q :: q in r.sent ==>
         || q == Children(l.folder) || q == Exists(r.lock.prev, true)
         || q == Get(l.created, true) || q == Delete(l.created, -1)
  }

  lemma AbortReaction(l: Lock, net: Net)
    ensures QueueReaction(l, Abort(l, net)) && Abort(l, net).lock.prev == l.prev
    ensures Abort(l, net).lock.closed
  {
  }

  lemma SubmitReaction(l: Lock, q: Request, up: bool, net: Net)
    requires || q == Children(l.folder) || q == Get(l.created, true)
             || q == Exists(l.prev, true) || q == Delete(l.created, -1)
    ensures QueueReaction(l, Submit(l, q, up, net)) && Submit(l, q, up, net).lock.prev == l.prev
  {
    AbortReaction(l, net);
  }

  lemma PlaceReaction(l: Lock, place: Place, net: Net)
    ensures var r := OnPlace(l, place, net);
            && QueueReaction(l, r)
            && (r.lock.prev == l.prev ||
                (place.After? && IsValidSequenceNode(place.name) && r.lock.prev == Join(l.folder, place.name)))
            && forall q :: q in r.sent && q.Exists? ==>
                 place.After? && IsValidSequenceNode(place.name) && q.path == Join(l.folder, place.name)
  {
    AbortReaction(l, net);
    match place {
      case Missing =>
      case First => SubmitReaction(Satisfy(l), Get(l.created, true), net.first, net);
      case After(p) =>
        var l1 := l.(prev := Join(l.folder, p));
        SubmitReaction(l1, Exists(l1.prev, true), net.first, net);
        SubmitReaction(l1, Get(l1.created, true), net.second, net);
    }
  }

  lemma QueueReacts(l: Lock, m: Message, net: Net)
    requires !m.CreateReply?
    ensures QueueReaction(l, OnMessage(l, m, net))
    ensures forall q :: q in OnMessage(l, m, net).sent && q.Exists? ==> m.ChildrenReply?
    ensures !m.ChildrenReply? ==> OnMessage(l, m, net).lock.prev == l.prev
  {
    AbortReaction(l, net);
    SubmitReaction(l, Children(l.folder), net.first, net);
    if m.ChildrenReply? && m.rc.Ok? && NodeName(l.created).Some? {
      PlaceReaction(l, PlaceOf(m.children, NodeName(l.created).value), net);
    }
  }

  lemma PlaceIsBelow(folder: string, k: nat, children: seq<string>)
    ensures var place := PlaceOf(children, LockName(k));
            place.After? && IsValidSequenceNode(place.name) ==> IsBelow(folder, k, Join(folder, place.name))
  {
    var place := PlaceOf(children, LockName(k));
    if place.After? {
      PlaceAfter(children, LockName(k));
      assert Join(folder, place.name)[|folder| + 1..] == place.name;
    }
  }

  lemma NewPrevious(folder: string, cl: Client, net: Net)
    requires Shape(folder, cl) && cl.link.inn != [] && cl.lock.created != ""
    ensures var r := OnMessage(cl.lock, cl.link.inn[0], net);
            && (r.lock.prev == cl.lock.prev || IsBelow(folder, cl.ticket.value, r.lock.prev))
            && forall q :: q in r.sent && q.Exists? ==> IsBelow(folder, cl.ticket.value, q.path)
  {
    var m := cl.link.inn[0];
    QueueReacts(cl.lock, m, net);
    if m.ChildrenReply? && m.rc.Ok? {
      LockNodeIsChild(folder, cl.ticket.value);
      PlaceIsBelow(folder, cl.ticket.value, m.children);
      PlaceReaction(cl.lock, PlaceOf(m.children, LockName(cl.ticket.value)), net);
    }
  }

  lemma ShapeReacts(folder: string, cl: Client, r: Reaction)
    requires Shape(folder, cl) && cl.lock.created != ""
    requires QueueReaction(cl.lock, r)
    requires r.lock.prev == cl.lock.prev || IsBelow(folder, cl.ticket.value, r.lock.prev)
    requires forall q :: q in r.sent && q.Exists? ==> IsBelow(folder, cl.ticket.value, q.path)
    ensures Shape(folder, React(cl, r))
  {
    var h := React(cl, r);
    ShapeStaysQueued(folder, cl, h.lock, h.link);
  }

  lemma ShapePopped(folder: string, cl: Client)
    requires Shape(folder, cl) && cl.lock.created != "" && cl.link.inn != []
    ensures Shape(folder, Popped(cl))
  {
    ShapeStaysQueued(folder, cl, cl.lock, Popped(cl).link);
  }

  lemma ShapeHandledQueued(folder: string, cl: Client, net: Net)
    requires Shape(folder, cl) && cl.link.inn != [] && cl.lock.created != ""
    ensures Shape(folder, Handled(cl, net))
  {
    ShapePopped(folder, cl);
    QueueReacts(cl.lock, cl.link.inn[0], net);
    NewPrevious(folder, cl, net);
    ShapeReacts(folder, Popped(cl), OnMessage(cl.lock, cl.link.inn[0], net));
  }

  lemma AncestorReaction(l: Lock, net: Net)
    requires l.depth > 0 && l.created == ""
    ensures var r := CreateAncestor(l, net);
            if r.sent == []
            then r.lock.closed && r.lock.(closed := true, failures := 0) == l.(closed := true, failures := 0)
            else |r.sent| == 1 && CreationRequest(l, r.sent[0]) && r.lock == l
  {
  }

  lemma ShapeHandledCreating(folder: string, cl: Client, net: Net)
    requires Shape(folder, cl) && cl.link.inn != [] && cl.lock.created == ""
    ensures Shape(folder, Handled(cl, net))
  {
    var l, m := cl.lock, cl.link.inn[0];
    assert m.CreateReply? && cl.link.out == [];
    if m.rc.Ok? && l.depth == 0 {
      ShapeEntered(folder, cl, net);
    } else if m.rc.NoNode? {
      AncestorReaction(l.(depth := l.depth + 1), net);
    } else if m.rc.Ok? && l.depth > 1 {
      AncestorReaction(l.(depth := l.depth - 1), net);
    }
  }

  lemma ShapeEntered(folder: string, cl: Client, net: Net)
    requires Shape(folder, cl) && cl.lock.created == "" && cl.link.inn != [] && cl.lock.depth == 0
    requires cl.link.inn[0].CreateReply? && cl.link.inn[0].rc.Ok?
    ensures Shape(folder, React(Popped(cl), Entered(cl.lock, cl.link.inn[0].created, net)))
  {
    var l, m := cl.lock, cl.link.inn[0];
    LockNodeIsChild(folder, cl.ticket.value);
    var next := if l.closed then Delete(m.created, -1) else Children(l.folder);
    SubmitReaction(l.(created := m.created), next, net.first, net);
  }

  lemma ShapeHandled(folder: string, cl: Client, net: Net)
    requires Shape(folder, cl) && cl.link.inn != []
    ensures Shape(folder, Handled(cl, net))
  {
    if cl.lock.created == "" {
      ShapeHandledCreating(folder, cl, net);
    } else {
      ShapeHandledQueued(folder, cl, net);
    }
  }

  lemma ShapeInterrupted(folder: string, cl: Client, up: bool, connected: bool, net: Net)
    requires Shape(folder, cl)
    ensures Shape(folder, React(cl, Close(cl.lock, up)))
    ensures Shape(folder, React(cl, OnEvent(cl.lock, Session(connected), net)))
  {
  }

  lemma ShapeTold(folder: string, cl: Client, change: Change)
    requires Shape(folder, cl)
    ensures Shape(folder, Told(cl, change))
  {
    if change.Fired? {
      EventsSpec(cl.link.watches, change.kind, change.path);
      RemainingSpec(cl.link.watches, change.path);
    }
  }

  lemma ServedMessages(k: Link, o: Outcome)
    requires k.out != []
    ensures forall m :: m in Answer(k, o).inn ==> m in k.inn || m.Event? || m == o.reply
    ensures forall w :: w in Answer(k, o).watches ==> w in k.watches || o.watch == Some(w)
  {
    if o.change.Fired? {
      RemainingSpec(k.watches, o.change.path);
      EventsSpec(k.watches, o.change.kind, o.change.path);
    }
  }

  lemma ReplyKind(t: Tree, r: Request, listing: seq<string>, fate: Fate)
    ensures var o := Serve(t, r, listing, fate);
            && (o.reply.CreateReply? <==> r.Create?)
            && (o.reply.PutReply? <==> r.Put?)
            && (TakesTicket(r, o.change) ==> r.Create?)
            && (o.watch.Some? ==> (r.Get? || r.Exists?) && o.watch.value == r.path)
  {
  }

  /** A create that is reported to have succeeded made exactly the reported node. */
  lemma CreateReplied(t: Tree, r: Request, listing: seq<string>, fate: Fate)
    requires r.Create?
    ensures var o := Serve(t, r, listing, fate);
            && o.watch.None?
            && (o.reply.rc.Ok? ==> o.change.Fired? && o.reply.created == CreatedPath(t, r.path, r.sequence))
            && (o.reply.rc.NoNode? ==> o.change.Silent?)
  {
  }

  lemma ShapeServedCreating(folder: string, t: Tree, cl: Client, o: Outcome)
    requires Shape(folder, cl) && cl.lock.created == "" && cl.link.out != []
    requires o.reply.CreateReply? && o.watch.None?
    requires var r := cl.link.out[0];
             r.Create? && (o.reply.rc.Ok? ==> o.change.Fired? && o.reply.created == CreatedPath(t, r.path, r.sequence))
    requires o.reply.rc.NoNode? ==> o.change.Silent?
    ensures Shape(folder, Served(cl, o, t.counter))
  {
    var h := Served(cl, o, t.counter);
    assert h.link == Link([], [o.reply], []);
  }

  lemma ShapeServedQueued(folder: string, cl: Client, o: Outcome, counter: nat)
    requires Shape(folder, cl) && cl.lock.created != "" && cl.link.out != []
    requires !o.reply.CreateReply? && !o.reply.PutReply?
    requires o.watch.Some? ==> (cl.link.out[0].Get? || cl.link.out[0].Exists?) && o.watch.value == cl.link.out[0].path
    ensures Shape(folder, Served(cl, o, counter))
  {
    var h := Served(cl, o, counter);
    assert QueueRequest(folder, cl.lock, cl.ticket.value, cl.link.out[0]);
    ServedMessages(cl.link, o);
    ShapeStaysQueued(folder, cl, h.lock, h.link);
  }

  lemma ShapeServed(folder: string, t: Tree, cl: Client, listing: seq<string>, fate: Fate)
    requires Shape(folder, cl) && cl.link.out != []
    ensures Shape(folder, Served(cl, Serve(t, cl.link.out[0], listing, fate), t.counter))
  {
    var r := cl.link.out[0];
    ReplyKind(t, r, listing, fate);
    if cl.lock.created == "" {
      CreateReplied(t, r, listing, fate);
      ShapeServedCreating(folder, t, cl, Serve(t, r, listing, fate));
    } else {
      assert QueueRequest(folder, cl.lock, cl.ticket.value, r);
      ShapeServedQueued(folder, cl, Serve(t, r, listing, fate), t.counter);
    }
  }

  lemma ShapeStarted(folder: string, value: Value, net: Net)
    ensures var r := Run(folder, value, net); Shape(folder, Client(r.lock, Link(r.sent, [], []), None))
  {
  }

  // ----- how the tree may change

  /** A change as the lock clients see it: which node came or went. A node with an issued
      number never comes back. */
  ghost predicate Evolves(folder: string, issued: set<nat>, t: Tree, change: Change, t': Tree) {
    match change
    case Silent => t'.nodes.Keys == t.nodes.Keys
    case Fired(Created, p) =>
      && p !in t.nodes && t'.nodes.Keys == t.nodes.Keys + {p}
      && forall j :: j in issued ==> p != LockNode(folder, j)
    case Fired(Changed, p) => p in t.nodes && t'.nodes.Keys == t.nodes.Keys
    case Fired(Deleted, p) => p in t.nodes && t'.nodes.Keys == t.nodes.Keys - {p}
    case Fired(Session(_), _) => false
  }

  ghost predicate Numbered(issued: set<nat>, counter: nat) {
    forall j :: j in issued ==> j < counter && j <= MAX_SEQUENCE
  }

  lemma {:induction false} CutShortens(path: string, depth: nat)
    requires depth > 0 && Cut(path, depth).Some?
    ensures |Cut(path, depth).value| < |path|
    decreases depth
  {
    if depth > 1 {
      CutShortens(path[..LastSlash(path)], depth - 1);
    }
  }

  lemma LockNodeOrder(folder: string, a: nat, b: nat)
    requires a <= MAX_SEQUENCE && b <= MAX_SEQUENCE
    ensures LockNode(folder, a) == LockNode(folder, b) <==> a == b
    ensures Less(LockName(a), LockName(b)) <==> a < b
  {
    SequenceNameOrder(LockPath(folder), a, b);
    SequenceNameOrder("lock", a, b);
  }

  lemma CreationEvolves(folder: string, issued: set<nat>, t: Tree, l: Lock, r: Request)
    requires l.folder == folder && CreationRequest(l, r) && Numbered(issued, t.counter)
    requires r.sequence ==> t.counter <= MAX_SEQUENCE
    ensures var o := PerformCreate(t, r.path, r.value, r.sequence); Evolves(folder, issued, t, o.change, o.tree)
  {
    if r.sequence {
      forall j | j in issued
        ensures LockNode(folder, t.counter) != LockNode(folder, j)
      {
        LockNodeOrder(folder, t.counter, j);
      }
    } else {
      CutShortens(LockPath(folder), l.depth);
    }
  }

  lemma ServeEvolves(folder: string, issued: set<nat>, t: Tree, cl: Client, listing: seq<string>, fate: Fate)
    requires Shape(folder, cl) && cl.link.out != [] && Numbered(issued, t.counter)
    requires cl.link.out[0].Create? && cl.link.out[0].sequence ==> t.counter <= MAX_SEQUENCE
    ensures var o := Serve(t, cl.link.out[0], listing, fate); Evolves(folder, issued, t, o.change, o.tree)
  {
    var r := cl.link.out[0];
    if cl.lock.created == "" {
      CreationEvolves(folder, issued, t, cl.lock, r);
    } else {
      assert QueueRequest(folder, cl.lock, cl.ticket.value, r);
    }
  }
}
