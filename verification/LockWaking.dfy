/** Why no wake-up is lost: an open client always has something in flight that makes it look
    again, or a live watch on a node that exists. */
module LockWaking {
  import opened Wrappers
  import opened Paths
  import opened Server
  import opened LockRecipe
  import opened LockSystem
  import opened LockShape

  predicate WakesOwn(m: Message) {
    m.ChildrenReply? || m.Event? || (m.GetReply? && !m.rc.Ok?)
  }

  predicate WakesPrev(m: Message) {
    m.ChildrenReply? || m.Event? || (m.ExistsReply? && !m.rc.Ok?)
  }

  ghost predicate Watched(t: Tree, k: Link, path: string) {
    path in t.nodes && path in k.watches
  }

  /** The own node exists and is watched, or the client is about to find out. */
  ghost predicate OwnGuarded(t: Tree, l: Lock, k: Link) {
    || Children(l.folder) in k.out || Get(l.created, true) in k.out
    || (exists m :: m in k.inn && WakesOwn(m))
    || Watched(t, k, l.created)
  }

  /** The predecessor exists and is watched, or the client is about to look again. */
  ghost predicate PrevGuarded(t: Tree, l: Lock, k: Link) {
    || Children(l.folder) in k.out || Exists(l.prev, true) in k.out
    || (exists m :: m in k.inn && WakesPrev(m))
    || Watched(t, k, l.prev)
  }

  ghost predicate Waking(t: Tree, cl: Client) {
    cl.lock.created != "" && !cl.lock.closed ==>
      && OwnGuarded(t, cl.lock, cl.link)
      && (cl.lock.grants == 0 ==> PrevGuarded(t, cl.lock, cl.link))
  }

  lemma WatchedTold(folder: string, issued: set<nat>, t: Tree, t': Tree, k: Link, change: Change, path: string)
    requires Watched(t, k, path) && Evolves(folder, issued, t, change, t')
    ensures Watched(t', Notify(k, change), path) || exists m :: m in Notify(k, change).inn && m.Event?
  {
    if change.Fired? {
      RemainingSpec(k.watches, change.path);
      EventsSpec(k.watches, change.kind, change.path);
      if path == change.path {
        assert Event(change.kind, path) in Notify(k, change).inn;
      }
    }
  }

  lemma WakingTold(folder: string, issued: set<nat>, t: Tree, t': Tree, cl: Client, change: Change)
    requires Waking(t, cl) && Evolves(folder, issued, t, change, t')
    ensures Waking(t', Told(cl, change))
  {
    var l, k := cl.lock, cl.link;
    if Watched(t, k, l.created) {
      WatchedTold(folder, issued, t, t', k, change, l.created);
    }
    if Watched(t, k, l.prev) {
      WatchedTold(folder, issued, t, t', k, change, l.prev);
    }
    assert forall m :: m in k.inn ==> m in Told(cl, change).link.inn;
  }

  lemma WakingInterrupted(t: Tree, cl: Client, up: bool, connected: bool, net: Net)
    requires Waking(t, cl)
    ensures Waking(t, React(cl, Close(cl.lock, up)))
    ensures Waking(t, React(cl, OnEvent(cl.lock, Session(connected), net)))
  {
  }

  /** Popping a message that wakes nobody, and sending nothing, keeps the guards. */
  lemma WakingPopped(t: Tree, cl: Client)
    requires Waking(t, cl) && cl.link.inn != []
    requires !WakesOwn(cl.link.inn[0]) && !WakesPrev(cl.link.inn[0])
    ensures Waking(t, Popped(cl))
  {
    var inn := cl.link.inn;
    assert forall m :: m in inn ==> m == inn[0] || m in inn[1..];
  }

  lemma OpenPlace(l: Lock, place: Place, net: Net)
    requires !OnPlace(l, place, net).lock.closed
    ensures var r := OnPlace(l, place, net);
            && Get(l.created, true) in r.sent && r.lock.created == l.created && r.lock.folder == l.folder
            && (r.lock.grants > 0 || Exists(r.lock.prev, true) in r.sent)
  {
  }

  /** A client that stays open after a message either looks again or lost no guard. */
  lemma OpenReaction(l: Lock, m: Message, net: Net)
    requires !OnMessage(l, m, net).lock.closed && !m.CreateReply?
    ensures var r := OnMessage(l, m, net);
            && r.lock.created == l.created && r.lock.folder == l.folder && !l.closed
            && (m.ChildrenReply? ==>
                  Get(l.created, true) in r.sent && (r.lock.grants > 0 || Exists(r.lock.prev, true) in r.sent))
            && (!m.ChildrenReply? && (WakesOwn(m) || WakesPrev(m)) ==> Children(l.folder) in r.sent)
            && (!WakesOwn(m) && !WakesPrev(m) ==> r.sent == [] && r.lock.prev == l.prev && r.lock.grants == l.grants)
  {
    if m.ChildrenReply? {
      OpenPlace(l, PlaceOf(m.children, NodeName(l.created).value), net);
    }
  }

  lemma WakingLooks(t: Tree, cl: Client, r: Reaction)
    requires
      || Children(r.lock.folder) in r.sent
      || (Get(r.lock.created, true) in r.sent && (r.lock.grants > 0 || Exists(r.lock.prev, true) in r.sent))
    ensures Waking(t, React(cl, r))
  {
    assert forall q :: q in r.sent ==> q in React(cl, r).link.out;
  }

  lemma WakingHandled(folder: string, t: Tree, cl: Client, net: Net)
    requires Shape(folder, cl) && cl.link.inn != [] && Waking(t, cl)
    ensures Waking(t, Handled(cl, net))
  {
    var l, m := cl.lock, cl.link.inn[0];
    var r := OnMessage(l, m, net);
    if r.lock.closed || r.lock.created == "" {
      return;
    }
    if l.created == "" {
      assert r.sent == [Children(l.folder)];
      WakingLooks(t, Popped(cl), r);
    } else {
      OpenReaction(l, m, net);
      if WakesOwn(m) || WakesPrev(m) {
        WakingLooks(t, Popped(cl), r);
      } else {
        WakingPopped(t, cl);
      }
    }
  }

  /** How a look-up is answered: what exists is then watched. */
  predicate Answers(t: Tree, r: Request, o: Outcome) {
    match r
    case Children(_) => o.reply.ChildrenReply?
    case Get(p, w) => o.reply.GetReply? && (o.reply.rc.Ok? && w ==> o.watch == Some(p) && p in t.nodes)
    case Exists(p, w) => o.reply.ExistsReply? && (o.reply.rc.Ok? && w ==> o.watch == Some(p) && p in t.nodes)
    case _ => true
  }

  lemma ServeAnswers(t: Tree, r: Request, listing: seq<string>, fate: Fate)
    ensures var o := Serve(t, r, listing, fate); Answers(o.tree, r, o)
  {
  }

  lemma AnswerHolds(k: Link, o: Outcome)
    requires k.out != []
    ensures var n, h := Notify(k, o.change), Answer(k, o);
            && o.reply in h.inn && (o.watch.Some? ==> o.watch.value in h.watches)
            && (forall q :: q in n.out ==> q == k.out[0] || q in h.out)
            && (forall m :: m in n.inn ==> m in h.inn)
            && (forall w :: w in n.watches ==> w in h.watches)
  {
  }

  /** An answer replaces its request in what keeps the client awake. */
  lemma WakingAnswered(t: Tree, cl: Client, o: Outcome)
    requires cl.link.out != [] && Waking(t, Told(cl, o.change)) && Answers(t, cl.link.out[0], o)
    ensures Waking(t, cl.(link := Answer(cl.link, o)))
  {
    AnswerHolds(cl.link, o);
  }

  lemma WakingServed(folder: string, issued: set<nat>, t: Tree, cl: Client, listing: seq<string>, fate: Fate)
    requires Shape(folder, cl) && cl.link.out != [] && Waking(t, cl) && Numbered(issued, t.counter)
    requires cl.link.out[0].Create? && cl.link.out[0].sequence ==> t.counter <= MAX_SEQUENCE
    ensures var o := Serve(t, cl.link.out[0], listing, fate); Waking(o.tree, Served(cl, o, t.counter))
  {
    var o := Serve(t, cl.link.out[0], listing, fate);
    ServeEvolves(folder, issued, t, cl, listing, fate);
    WakingTold(folder, issued, t, o.tree, cl, o.change);
    ServeAnswers(t, cl.link.out[0], listing, fate);
    WakingAnswered(o.tree, cl, o);
  }
}
