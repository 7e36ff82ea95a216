/** Why two holders cannot coexist: a granted client is ahead of every live earlier number. */
module LockExclusion {
  import opened Paths
  import opened Server
  import opened LockRecipe
  import opened LockSystem
  import opened LockShape

  /** No node with a smaller issued number is left. */
  ghost predicate Ahead(folder: string, t: Tree, issued: set<nat>, k: nat) {
    forall j :: j in issued && j < k ==> LockNode(folder, j) !in t.nodes
  }

  /** A listing mentions every smaller issued node that is still there. */
  ghost predicate Covers(folder: string, t: Tree, issued: set<nat>, k: nat, children: seq<string>) {
    forall j :: j in issued && j < k && LockNode(folder, j) in t.nodes ==> LockName(j) in children
  }

  ghost predicate Ordered(folder: string, t: Tree, issued: set<nat>, cl: Client) {
    cl.ticket.Some? ==>
      && cl.ticket.value in issued
      && (cl.lock.grants > 0 ==> Ahead(folder, t, issued, cl.ticket.value))
      && (forall m :: m in cl.link.inn && m.ChildrenReply? && m.rc.Ok? ==>
            Covers(folder, t, issued, cl.ticket.value, m.children))
  }

  lemma OrderedTold(folder: string, t: Tree, t': Tree, issued: set<nat>, cl: Client, change: Change)
    requires Ordered(folder, t, issued, cl) && Evolves(folder, issued, t, change, t')
    ensures Ordered(folder, t', issued, Told(cl, change))
  {
    if change.Fired? {
      EventsSpec(cl.link.watches, change.kind, change.path);
    }
  }

  lemma OrderedIssued(folder: string, t: Tree, issued: set<nat>, n: nat, cl: Client)
    requires Ordered(folder, t, issued, cl) && Numbered(issued, n)
    ensures Ordered(folder, t, issued + {n}, cl)
  {
  }

  lemma AncestorDoesNotGrant(l: Lock, net: Net)
    ensures CreateAncestor(l, net).lock.grants == l.grants
  {
  }

  lemma CreateDoesNotGrant(l: Lock, rc: Code, created: string, net: Net)
    ensures OnCreate(l, rc, created, net).lock.grants == l.grants
  {
    AncestorDoesNotGrant(l.(depth := l.depth + 1), net);
    if l.depth > 0 {
      AncestorDoesNotGrant(l.(depth := l.depth - 1), net);
    }
  }

  lemma PlaceGrants(l: Lock, place: Place, net: Net)
    ensures var r := OnPlace(l, place, net);
            r.lock.grants > l.grants ==> r.lock.grants == l.grants + 1 && !l.closed && place.First?
  {
  }

  /** Only a listing whose first name is the own one grants the lock. */
  lemma GrantNeedsFirst(l: Lock, m: Message, net: Net)
    ensures var r := OnMessage(l, m, net);
            r.lock.grants > l.grants ==>
              && r.lock.grants == l.grants + 1 && !l.closed
              && m.ChildrenReply? && m.rc.Ok? && NodeName(l.created).Some?
              && PlaceOf(m.children, NodeName(l.created).value).First?
  {
    match m
    case CreateReply(rc, created) => CreateDoesNotGrant(l, rc, created, net);
    case ChildrenReply(rc, children) =>
      if NodeName(l.created).Some? {
        PlaceGrants(l, PlaceOf(children, NodeName(l.created).value), net);
      }
    case _ =>
  }

  lemma FirstIsAhead(folder: string, t: Tree, issued: set<nat>, k: nat, children: seq<string>)
    requires k in issued && Numbered(issued, t.counter)
    requires Covers(folder, t, issued, k, children) && PlaceOf(children, LockName(k)).First?
    ensures Ahead(folder, t, issued, k)
  {
    PlaceSpec(children, LockName(k));
    forall j | j in issued && j < k
      ensures LockNode(folder, j) !in t.nodes
    {
      LockNodeOrder(folder, j, k);
    }
  }

  lemma OrderedHandled(folder: string, t: Tree, issued: set<nat>, cl: Client, net: Net)
    requires Shape(folder, cl) && cl.link.inn != [] && Numbered(issued, t.counter)
    requires Ordered(folder, t, issued, cl)
    ensures Ordered(folder, t, issued, Handled(cl, net))
  {
    var m := cl.link.inn[0];
    GrantNeedsFirst(cl.lock, m, net);
    if Handled(cl, net).lock.grants > cl.lock.grants {
      LockNodeIsChild(folder, cl.ticket.value);
      FirstIsAhead(folder, t, issued, cl.ticket.value, m.children);
    }
  }

  lemma OrderedInterrupted(folder: string, t: Tree, issued: set<nat>, cl: Client, up: bool, connected: bool, net: Net)
    requires Ordered(folder, t, issued, cl)
    ensures Ordered(folder, t, issued, React(cl, Close(cl.lock, up)))
    ensures Ordered(folder, t, issued, React(cl, OnEvent(cl.lock, Session(connected), net)))
  {
  }

  lemma ListingCovers(folder: string, t: Tree, issued: set<nat>, k: nat, listing: seq<string>)
    requires Enumerates(listing, ChildNames(t, folder))
    ensures Covers(folder, t, issued, k, listing)
  {
    forall j | j in issued && j < k && LockNode(folder, j) in t.nodes
      ensures LockName(j) in listing
    {
      LockNodeIsChild(folder, j);
      ChildNamesAreChildren(t, folder, LockName(j));
    }
  }

  lemma OrderedAnswered(folder: string, t: Tree, issued: set<nat>, cl: Client, o: Outcome)
    requires cl.link.out != [] && Ordered(folder, t, issued, Told(cl, o.change))
    requires cl.ticket.Some? && o.reply.ChildrenReply? && o.reply.rc.Ok? ==>
               Covers(folder, t, issued, cl.ticket.value, o.reply.children)
    ensures Ordered(folder, t, issued, cl.(link := Answer(cl.link, o)))
  {
  }

  lemma OrderedCreating(folder: string, t: Tree, issued: set<nat>, cl: Client, o: Outcome, counter: nat)
    requires Shape(folder, cl) && cl.lock.created == "" && cl.link.out != [] && o.reply.CreateReply?
    ensures Ordered(folder, t, if TakesTicket(cl.link.out[0], o.change) then issued + {counter} else issued,
                    Served(cl, o, counter))
  {
    assert Served(cl, o, counter).link.inn == [o.reply];
  }

  lemma OrderedServed(folder: string, t: Tree, issued: set<nat>, cl: Client, listing: seq<string>, fate: Fate)
    requires Shape(folder, cl) && cl.link.out != [] && Numbered(issued, t.counter)
    requires Ordered(folder, t, issued, cl) && ListingFor(t, cl.link.out[0], listing)
    requires cl.link.out[0].Create? && cl.link.out[0].sequence ==> t.counter <= MAX_SEQUENCE
    ensures var r := cl.link.out[0];
            var o := Serve(t, r, listing, fate);
            Ordered(folder, o.tree, if TakesTicket(r, o.change) then issued + {t.counter} else issued,
                    Served(cl, o, t.counter))
  {
    var r := cl.link.out[0];
    var o := Serve(t, r, listing, fate);
    ReplyKind(t, r, listing, fate);
    if cl.lock.created == "" {
      OrderedCreating(folder, o.tree, issued, cl, o, t.counter);
    } else {
      assert QueueRequest(folder, cl.lock, cl.ticket.value, r);
      ServeEvolves(folder, issued, t, cl, listing, fate);
      OrderedTold(folder, t, o.tree, issued, cl, o.change);
      if r.Children? {
        ListingCovers(folder, t, issued, cl.ticket.value, listing);
      }
      OrderedAnswered(folder, o.tree, issued, cl, o);
    }
  }
}
