/** Why a closed lock lets go of its node. */
module LockRelease {
  import opened Paths
  import opened Server
  import opened LockRecipe
  import opened LockSystem
  import opened LockShape

  predicate FailedDelete(m: Message) {
    m.DeleteReply? && !m.rc.Ok?
  }

  /** A closed lock's node is gone, or its removal is under way, or a reconnect was forced. */
  ghost predicate Released(t: Tree, cl: Client) {
    var l, k := cl.lock, cl.link;
    l.closed && l.created != "" ==>
      || l.reconnects > 0
      || l.created !in t.nodes
      || Delete(l.created, -1) in k.out
      || exists m :: m in k.inn && FailedDelete(m)
  }

  predicate LetsGo(r: Reaction) {
    r.lock.reconnects > 0 || Delete(r.lock.created, -1) in r.sent
  }

  lemma LetsGoReleases(t: Tree, cl: Client, r: Reaction)
    requires LetsGo(r)
    ensures Released(t, React(cl, r))
  {
  }

  /** A handler that closes an open lock lets go of the node it knows. */
  lemma ClosingLetsGo(l: Lock, m: Message, net: Net)
    requires l.held && !m.CreateReply? && l.created != ""
    requires !l.closed && OnMessage(l, m, net).lock.closed
    ensures LetsGo(OnMessage(l, m, net))
  {
    if m.ChildrenReply? && m.rc.Ok? && NodeName(l.created).Some? {
      var place := PlaceOf(m.children, NodeName(l.created).value);
      assert OnMessage(l, m, net) == OnPlace(l, place, net);
      PlaceLetsGo(l, place, net);
    }
  }

  lemma PlaceLetsGo(l: Lock, place: Place, net: Net)
    requires l.held && l.created != ""
    requires !l.closed && OnPlace(l, place, net).lock.closed
    ensures LetsGo(OnPlace(l, place, net))
  {
  }

  lemma ClosedStays(l: Lock, m: Message, net: Net)
    requires l.closed && l.created != "" && !m.CreateReply?
    ensures var r := OnMessage(l, m, net);
            && r.lock.closed && r.lock.created == l.created && r.lock.reconnects >= l.reconnects
            && (FailedDelete(m) ==> r.lock.reconnects > 0)
  {
    QueueReacts(l, m, net);
  }

  lemma ReleasedHandled(folder: string, t: Tree, cl: Client, net: Net)
    requires Shape(folder, cl) && cl.link.inn != [] && Released(t, cl)
    ensures Released(t, Handled(cl, net))
  {
    var l, m := cl.lock, cl.link.inn[0];
    var r := OnMessage(l, m, net);
    if l.created == "" {
      if r.lock.closed && r.lock.created != "" {
        assert LetsGo(r);
        LetsGoReleases(t, Popped(cl), r);
      }
    } else if l.closed {
      ClosedStays(l, m, net);
      var h := Handled(cl, net);
      assert forall q :: q in cl.link.out ==> q in h.link.out;
      assert forall x :: x in cl.link.inn ==> x == m || x in h.link.inn;
    } else if r.lock.closed {
      ClosingLetsGo(l, m, net);
      LetsGoReleases(t, Popped(cl), r);
    }
  }

  lemma ReleasedInterrupted(folder: string, t: Tree, cl: Client, up: bool, connected: bool, net: Net)
    requires Shape(folder, cl) && Released(t, cl)
    ensures Released(t, React(cl, Close(cl.lock, up)))
    ensures Released(t, React(cl, OnEvent(cl.lock, Session(connected), net)))
  {
    var l := cl.lock;
    if l.created != "" && !l.closed {
      LetsGoReleases(t, cl, Close(l, up));
      LetsGoReleases(t, cl, OnEvent(l, Session(connected), net));
    } else if l.created != "" {
      var h := React(cl, OnEvent(l, Session(connected), net));
      assert forall q :: q in cl.link.out ==> q in h.link.out;
    }
  }

  lemma ReleasedTold(folder: string, issued: set<nat>, t: Tree, t': Tree, cl: Client, change: Change)
    requires Shape(folder, cl) && Released(t, cl) && Evolves(folder, issued, t, change, t')
    requires cl.ticket.Some? ==> cl.ticket.value in issued
    ensures Released(t', Told(cl, change))
  {
    assert forall m :: m in cl.link.inn ==> m in Told(cl, change).link.inn;
  }

  lemma ReleasedServed(folder: string, issued: set<nat>, t: Tree, cl: Client, listing: seq<string>, fate: Fate)
    requires Shape(folder, cl) && cl.link.out != [] && Released(t, cl) && Numbered(issued, t.counter)
    requires cl.ticket.Some? ==> cl.ticket.value in issued
    requires cl.link.out[0].Create? && cl.link.out[0].sequence ==> t.counter <= MAX_SEQUENCE
    ensures var o := Serve(t, cl.link.out[0], listing, fate); Released(o.tree, Served(cl, o, t.counter))
  {
    if cl.lock.created == "" || !cl.lock.closed { return; }
    var r := cl.link.out[0];
    var o := Serve(t, r, listing, fate);
    ServeEvolves(folder, issued, t, cl, listing, fate);
    ReleasedTold(folder, issued, t, o.tree, cl, o.change);
    var k := Notify(cl.link, o.change);
    var h := Answer(cl.link, o);
    assert o.reply in h.inn;
    assert forall q :: q in k.out ==> q == r || q in h.out;
    assert forall m :: m in k.inn ==> m in h.inn;
  }
}
