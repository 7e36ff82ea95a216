/** Why the callback sees at most one grant: while the own node exists there is a single
    chain of look-ups under way, and afterwards no new listing can show it. */
module LockOnce {
  import opened Paths
  import opened Server
  import opened LockRecipe
  import opened LockSystem
  import opened LockShape
  import opened LockExclusion

  /** A request or message that can lead to one more listing. */
  function RequestWeight(r: Request): nat {
    if r.Children? || r.Exists? then 1 else 0
  }

  function MessageWeight(m: Message): nat {
    if m.ChildrenReply? || (m.ExistsReply? && m.rc.NoNode?) || (m.Event? && m.kind.Deleted?) then 1 else 0
  }

  function OutWeight(out: seq<Request>): nat {
    if out == [] then 0 else RequestWeight(out[0]) + OutWeight(out[1..])
  }

  function InnWeight(inn: seq<Message>): nat {
    if inn == [] then 0 else MessageWeight(inn[0]) + InnWeight(inn[1..])
  }

  /** Watches that will report a deletion of somebody else's node. */
  function WatchWeight(watches: seq<string>, nodes: set<string>, own: string): nat {
    if watches == [] then 0
    else (if watches[0] != own && watches[0] in nodes then 1 else 0) + WatchWeight(watches[1..], nodes, own)
  }

  predicate Shows(m: Message, name: string) {
    m.ChildrenReply? && name in m.children
  }

  function OwnListings(inn: seq<Message>, name: string): nat {
    if inn == [] then 0 else (if Shows(inn[0], name) then 1 else 0) + OwnListings(inn[1..], name)
  }

  ghost function Chain(t: Tree, cl: Client): nat {
    cl.lock.grants + OutWeight(cl.link.out) + InnWeight(cl.link.inn)
    + WatchWeight(cl.link.watches, t.nodes.Keys, cl.lock.created)
  }

  ghost predicate Once(t: Tree, cl: Client) {
    && cl.lock.grants <= 1
    && (cl.lock.created != "" && cl.ticket.Some? && !cl.lock.closed ==>
          if cl.lock.created in t.nodes then Chain(t, cl) <= 1
          else cl.lock.grants + OwnListings(cl.link.inn, LockName(cl.ticket.value)) <= 1)
  }

  lemma {:induction false} OutWeightConcat(a: seq<Request>, b: seq<Request>)
    ensures OutWeight(a + b) == OutWeight(a) + OutWeight(b)
  {
    if a == [] {
      assert a + b == b;
    } else {
      assert (a + b)[1..] == a[1..] + b;
      OutWeightConcat(a[1..], b);
    }
  }

  lemma {:induction false} InnConcat(a: seq<Message>, b: seq<Message>, name: string)
    ensures InnWeight(a + b) == InnWeight(a) + InnWeight(b)
    ensures OwnListings(a + b, name) == OwnListings(a, name) + OwnListings(b, name)
  {
    if a == [] {
      assert a + b == b;
    } else {
      assert (a + b)[1..] == a[1..] + b;
      InnConcat(a[1..], b, name);
    }
  }

  lemma {:induction false} WatchWeightAdd(ws: seq<string>, w: string, nodes: set<string>, own: string)
    ensures WatchWeight(ws + [w], nodes, own) == WatchWeight(ws, nodes, own) + (if w != own && w in nodes then 1 else 0)
  {
    if ws == [] {
      assert ws + [w] == [w];
    } else {
      assert (ws + [w])[1..] == ws[1..] + [w];
      WatchWeightAdd(ws[1..], w, nodes, own);
    }
  }

  lemma {:induction false} ListingsBounded(inn: seq<Message>, name: string)
    ensures OwnListings(inn, name) <= InnWeight(inn)
  {
    if inn != [] {
      ListingsBounded(inn[1..], name);
    }
  }

  lemma {:induction false} EventsShowNothing(ws: seq<string>, kind: Kind, path: string, name: string)
    ensures OwnListings(Events(ws, kind, path), name) == 0
  {
    if ws != [] {
      EventsShowNothing(ws[1..], kind, path, name);
      InnConcat(if ws[0] == path then [Event(kind, path)] else [], Events(ws[1..], kind, path), name);
    }
  }

  /** Firing a watch on somebody else's node turns its weight into an event, never more. */
  lemma {:induction false} FiringKeepsWeight(ws: seq<string>, kind: Kind, path: string,
                                             nodes: set<string>, nodes': set<string>, own: string)
    requires path != own && nodes' - {path} == nodes - {path}
    requires kind.Deleted? ==> path in nodes
    ensures InnWeight(Events(ws, kind, path)) + WatchWeight(Remaining(ws, path), nodes', own)
            <= WatchWeight(ws, nodes, own)
  {
    if ws != [] {
      FiringKeepsWeight(ws[1..], kind, path, nodes, nodes', own);
      var rest := Remaining(ws[1..], path);
      if ws[0] == path {
        InnConcat([Event(kind, path)], Events(ws[1..], kind, path), "");
        assert InnWeight([Event(kind, path)]) == (if kind.Deleted? then 1 else 0);
        assert Events(ws, kind, path) == [Event(kind, path)] + Events(ws[1..], kind, path);
        assert Remaining(ws, path) == rest;
      } else {
        assert Events(ws, kind, path) == Events(ws[1..], kind, path);
        assert Remaining(ws, path) == [ws[0]] + rest;
        assert ([ws[0]] + rest)[1..] == rest;
        assert ws[0] in nodes - {path} <==> ws[0] in nodes' - {path};
      }
    }
  }

  lemma OnceTold(folder: string, issued: set<nat>, t: Tree, t': Tree, cl: Client, change: Change)
    requires Shape(folder, cl) && Once(t, cl) && Evolves(folder, issued, t, change, t')
    requires cl.ticket.Some? ==> cl.ticket.value in issued
    ensures Once(t', Told(cl, change))
  {
    var l, k := cl.lock, cl.link;
    if change.Silent? || l.created == "" || l.closed { return; }
    var p, name := change.path, LockName(cl.ticket.value);
    var events := Events(k.watches, change.kind, p);
    InnConcat(k.inn, events, name);
    EventsShowNothing(k.watches, change.kind, p, name);
    if l.created in t.nodes {
      ListingsBounded(k.inn, name);
      if p != l.created {
        FiringKeepsWeight(k.watches, change.kind, p, t.nodes.Keys, t'.nodes.Keys, l.created);
      } else if !change.kind.Deleted? {
        OwnChangeKeepsWeight(k.watches, change.kind, p, t.nodes.Keys);
      }
    }
  }

  lemma {:induction false} OwnChangeKeepsWeight(ws: seq<string>, kind: Kind, own: string, nodes: set<string>)
    requires !kind.Deleted?
    ensures InnWeight(Events(ws, kind, own)) + WatchWeight(Remaining(ws, own), nodes, own)
            <= WatchWeight(ws, nodes, own)
  {
    if ws != [] {
      OwnChangeKeepsWeight(ws[1..], kind, own, nodes);
      var rest := Remaining(ws[1..], own);
      if ws[0] == own {
        InnConcat([Event(kind, own)], Events(ws[1..], kind, own), "");
        assert Events(ws, kind, own) == [Event(kind, own)] + Events(ws[1..], kind, own);
        assert Remaining(ws, own) == rest;
        assert InnWeight([Event(kind, own)]) == 0;
      } else {
        assert Events(ws, kind, own) == Events(ws[1..], kind, own);
        assert Remaining(ws, own) == [ws[0]] + rest;
        assert ([ws[0]] + rest)[1..] == rest;
      }
    }
  }

  lemma PlaceWeight(l: Lock, place: Place, net: Net)
    ensures var r := OnPlace(l, place, net);
            && (r.lock.grants == l.grants || (r.lock.grants == l.grants + 1 && place.First?))
            && (!r.lock.closed ==> r.lock.grants + OutWeight(r.sent) <= l.grants + 1)
  {
    var get, exists_ := Get(l.created, true), Exists(Join(l.folder, if place.After? then place.name else ""), true);
    assert OutWeight([get]) == 0;
    assert OutWeight([exists_]) == 1;
    OutWeightConcat([exists_], [get]);
  }

  lemma ReactionWeight(l: Lock, m: Message, net: Net)
    requires !m.CreateReply?
    ensures var r := OnMessage(l, m, net);
            !r.lock.closed ==> r.lock.grants + OutWeight(r.sent) <= l.grants + MessageWeight(m)
  {
    assert OutWeight([Children(l.folder)]) == 1;
    if m.ChildrenReply? && m.rc.Ok? && NodeName(l.created).Some? {
      PlaceWeight(l, PlaceOf(m.children, NodeName(l.created).value), net);
    }
  }

  lemma OnceHandledQueued(folder: string, t: Tree, cl: Client, net: Net)
    requires Shape(folder, cl) && cl.link.inn != [] && Once(t, cl) && cl.lock.created != ""
    ensures Once(t, Handled(cl, net))
  {
    var l, m := cl.lock, cl.link.inn[0];
    var r := OnMessage(l, m, net);
    var name := LockName(cl.ticket.value);
    LockNodeIsChild(folder, cl.ticket.value);
    GrantNeedsFirst(l, m, net);
    ReactionWeight(l, m, net);
    QueueReacts(l, m, net);
    OutWeightConcat(cl.link.out, r.sent);
    if r.lock.grants > l.grants {
      PlaceSpec(m.children, name);
    }
  }

  lemma OnceHandled(folder: string, t: Tree, cl: Client, net: Net)
    requires Shape(folder, cl) && cl.link.inn != [] && Once(t, cl)
    ensures Once(t, Handled(cl, net))
  {
    if cl.lock.created != "" {
      OnceHandledQueued(folder, t, cl, net);
    } else {
      assert OutWeight([Children(folder)]) == 1;
      var h := Handled(cl, net);
      if h.lock.created != "" && !h.lock.closed {
        assert h.link == Link([Children(folder)], [], []);
      }
    }
  }

  lemma OnceInterrupted(t: Tree, cl: Client, up: bool, connected: bool, net: Net)
    requires Once(t, cl)
    ensures Once(t, React(cl, Close(cl.lock, up)))
    ensures Once(t, React(cl, OnEvent(cl.lock, Session(connected), net)))
  {
  }

  lemma GoneIsNotListed(folder: string, t: Tree, k: nat, listing: seq<string>)
    requires Enumerates(listing, ChildNames(t, folder)) && LockNode(folder, k) !in t.nodes
    ensures LockName(k) !in listing
  {
    LockNodeIsChild(folder, k);
    ChildNamesAreChildren(t, folder, LockName(k));
  }

  /** An answer weighs no more than its request, and a listing does not show a deleted node. */
  lemma ServeWeight(folder: string, t: Tree, cl: Client, listing: seq<string>, fate: Fate)
    requires cl.ticket.Some? && cl.link.out != [] && ListingFor(t, cl.link.out[0], listing)
    requires QueueRequest(folder, cl.lock, cl.ticket.value, cl.link.out[0])
    requires cl.lock.created == LockNode(folder, cl.ticket.value)
    ensures var o := Serve(t, cl.link.out[0], listing, fate); Lighter(o.tree, cl, o)
  {
    var r := cl.link.out[0];
    if r.Exists? {
      BelowIsOther(folder, cl.ticket.value, r.path);
    } else if r.Children? && cl.lock.created !in t.nodes && r.path in t.nodes {
      GoneIsNotListed(folder, t, cl.ticket.value, listing);
    }
  }

  ghost predicate Lighter(t: Tree, cl: Client, o: Outcome)
    requires cl.ticket.Some? && cl.link.out != []
  {
    && var waits := o.watch.Some? && o.watch.value != cl.lock.created && o.watch.value in t.nodes;
    && MessageWeight(o.reply) + (if waits then 1 else 0) <= RequestWeight(cl.link.out[0])
    && (cl.lock.created !in t.nodes ==> !Shows(o.reply, LockName(cl.ticket.value)))
  }

  lemma OnceAnswered(t: Tree, cl: Client, o: Outcome)
    requires cl.ticket.Some? && cl.link.out != [] && Once(t, cl) && Lighter(t, cl, o)
    ensures Once(t, cl.(link := Answer(cl.link, o.(change := Silent))))
  {
    var k, name := cl.link, LockName(cl.ticket.value);
    InnConcat(k.inn, [o.reply], name);
    assert InnWeight([o.reply]) == MessageWeight(o.reply);
    assert OwnListings([o.reply], name) == if Shows(o.reply, name) then 1 else 0;
    if o.watch.Some? {
      WatchWeightAdd(k.watches, o.watch.value, t.nodes.Keys, cl.lock.created);
    }
    assert k.watches + [] == k.watches;
  }

  lemma OnceServed(folder: string, issued: set<nat>, t: Tree, cl: Client, listing: seq<string>, fate: Fate)
    requires Shape(folder, cl) && cl.link.out != [] && Once(t, cl) && Numbered(issued, t.counter)
    requires ListingFor(t, cl.link.out[0], listing)
    requires cl.ticket.Some? ==> cl.ticket.value in issued
    requires cl.link.out[0].Create? && cl.link.out[0].sequence ==> t.counter <= MAX_SEQUENCE
    ensures var o := Serve(t, cl.link.out[0], listing, fate); Once(o.tree, Served(cl, o, t.counter))
  {
    if cl.lock.created == "" || cl.lock.closed { return; }
    var r := cl.link.out[0];
    var o := Serve(t, r, listing, fate);
    ServeEvolves(folder, issued, t, cl, listing, fate);
    OnceTold(folder, issued, t, o.tree, cl, o.change);
    assert QueueRequest(folder, cl.lock, cl.ticket.value, r);
    ServeWeight(folder, t, cl, listing, fate);
    OnceAnswered(o.tree, Told(cl, o.change), o);
  }
}
