/** What a subscriber is told, in every run: each state that was read, in order, until the first
    thing that ends the subscription, and then one failure. */
module SubscribeTold {
  import opened Paths
  import opened Server
  import opened SubscribeRecipe
  import opened SubscribeSystem
  import opened SubscribeVersions

  ghost predicate LeftOpen(steps: seq<Step>) {
    CloseScope !in steps
  }

  /** The message makes the subscription read the node. */
  predicate Wakes(m: Message) {
    m == ExistsReply(Ok) || (m.Event? && !Final(m))
  }

  /** The step ends an open subscription: a cancellation, a read that failed or showed children, a
      deletion, a lost session, or a read that cannot be asked for. */
  predicate Stops(s: System, step: Step) {
    match step
    case Deliver(up) =>
      s.link.inn != [] && (Final(s.link.inn[0]) || (Wakes(s.link.inn[0]) && !(up && ValidPath(s.action.path))))
    case Cancel => true
    case _ => false
  }

  /** The step before which everything is told, or the end of the run. */
  ghost function Until(s: System, steps: seq<Step>, t: System): (n: nat)
    requires Runs(s, steps, t)
    ensures n <= |steps|
    decreases |steps|
  {
    if steps == [] || Stops(s, steps[0]) then 0 else 1 + Until(Next(s, steps[0]), steps[1..], t)
  }

  /** What the message handled by a step shows. */
  ghost function Gives(s: System, step: Step): seq<Update>
    requires Enabled(s, step)
  {
    if step.Deliver? then Shown(s.link.inn[0]) else []
  }

  /** What the messages handled by the first `n` steps show. */
  ghost function ShownBy(s: System, steps: seq<Step>, t: System, n: nat): seq<Update>
    requires n <= |steps| && Runs(s, steps, t)
    decreases n
  {
    if n == 0 then []
    else Gives(s, steps[0]) + ShownBy(Next(s, steps[0]), steps[1..], t, n - 1)
  }

  lemma StopTells(s: System, step: Step)
    requires !s.action.closed && Enabled(s, step) && Stops(s, step)
    ensures Next(s, step).action == s.action.(closed := true, failures := s.action.failures + 1)
  {
  }

  lemma OtherTells(s: System, step: Step)
    requires !s.action.closed && Enabled(s, step) && !Stops(s, step) && step != CloseScope
    ensures Next(s, step).action == s.action.(delivered := s.action.delivered + Gives(s, step))
  {
    assert s.action.delivered + [] == s.action.delivered;
  }

  lemma ClosedIsSilent(s: System, step: Step)
    requires s.action.closed && Enabled(s, step)
    ensures Next(s, step).action == s.action
  {
  }

  lemma {:induction false} ClosedStaysSilent(s: System, steps: seq<Step>, t: System)
    requires s.action.closed && Runs(s, steps, t)
    ensures t.action == s.action
    decreases |steps|
  {
    if steps != [] {
      ClosedIsSilent(s, steps[0]);
      ClosedStaysSilent(Next(s, steps[0]), steps[1..], t);
    }
  }

  /** From `a` to `b` the subscriber was given `us`, and told a failure if that was the end. */
  predicate Tells(a: Subscription, b: Subscription, us: seq<Update>, ended: bool) {
    && b.delivered == a.delivered + us
    && b.closed == ended && b.failures == if ended then a.failures + 1 else a.failures
  }

  lemma TellsMore(a: Subscription, b: Subscription, us: seq<Update>, vs: seq<Update>, ended: bool)
    requires Tells(a.(delivered := a.delivered + us), b, vs, ended)
    ensures Tells(a, b, us + vs, ended)
  {
    assert a.delivered + us + vs == a.delivered + (us + vs);
  }

  lemma {:induction false} OpenIsTold(s: System, steps: seq<Step>, t: System)
    requires !s.action.closed && Runs(s, steps, t) && LeftOpen(steps)
    ensures Tells(s.action, t.action, ShownBy(s, steps, t, Until(s, steps, t)), Until(s, steps, t) < |steps|)
    decreases |steps|
  {
    if steps == [] {
    } else if Stops(s, steps[0]) {
      StopTells(s, steps[0]);
      ClosedStaysSilent(Next(s, steps[0]), steps[1..], t);
    } else {
      var u := Next(s, steps[0]);
      OtherTells(s, steps[0]);
      OpenIsTold(u, steps[1..], t);
      var n := Until(u, steps[1..], t);
      TellsMore(s.action, t.action, Gives(s, steps[0]), ShownBy(u, steps[1..], t, n), n < |steps| - 1);
    }
  }

  /** In every run in which the subscriber leaves its scope open: it has been given exactly what
      the answers before the first end show, in order; the scope is closed exactly if there was an
      end, and exactly then the subscriber was told a failure, once. A subscription whose first
      request could not be sent is told so at once. */
  lemma {:induction false} SubscriberHears(s0: System, steps: seq<Step>, s: System)
    requires Initial(s0) && Runs(s0, steps, s) && LeftOpen(steps)
    ensures s0.link.out == [] ==> s.action.delivered == [] && s.action.closed && s.action.failures == 1
    ensures s0.link.out != [] ==>
      && s.action.delivered == ShownBy(s0, steps, s, Until(s0, steps, s))
      && s.action.closed == (Until(s0, steps, s) < |steps|)
      && s.action.failures == if Until(s0, steps, s) < |steps| then 1 else 0
  {
    if s0.action.closed {
      ClosedStaysSilent(s0, steps, s);
    } else {
      OpenIsTold(s0, steps, s);
      var shown := ShownBy(s0, steps, s, Until(s0, steps, s));
      assert [] + shown == shown;
    }
  }

  // ----- after the end

  predicate Watching(r: Request) {
    (r.Get? || r.Exists?) && r.watch
  }

  /** The subscription is closed, and nothing it has asked for sets a watch. */
  predicate Ceased(s: System) {
    s.action.closed && forall r :: r in s.link.out ==> !Watching(r)
  }

  lemma {:induction false} RemainingShrinks(watches: seq<string>, path: string)
    ensures |Remaining(watches, path)| <= |watches|
  {
    if watches != [] {
      RemainingShrinks(watches[1..], path);
    }
  }

  lemma NotifyShrinks(l: Link, c: Change)
    ensures |Notify(l, c).watches| <= |l.watches| && Notify(l, c).out == l.out
  {
    if c.Fired? {
      RemainingShrinks(l.watches, c.path);
    }
  }

  lemma UnwatchedServe(t: Tree, r: Request, fate: Fate)
    requires !Watching(r)
    ensures Serve(t, r, [], fate).watch.None?
  {
  }

  lemma StepStaysCeased(s: System, step: Step)
    requires Ceased(s) && Enabled(s, step)
    ensures Ceased(Next(s, step)) && |Next(s, step).link.watches| <= |s.link.watches|
  {
    match step
    case ServeNext(fate) =>
      UnwatchedServe(s.tree, s.link.out[0], fate);
      NotifyShrinks(s.link.(out := s.link.out[1..]), Serve(s.tree, s.link.out[0], [], fate).change);
    case OthersCreate(path, _) => NotifyShrinks(s.link, Fired(Created, path));
    case OthersPut(path, _) => NotifyShrinks(s.link, Fired(Changed, path));
    case OthersDelete(path) => NotifyShrinks(s.link, Fired(Deleted, path));
    case _ =>
  }

  /** A closed subscription never sets a watch again: once what it had already asked for is served,
      its watches only go away, whatever happens to the node. */
  lemma {:induction false} ClosedStopsWatching(s: System, steps: seq<Step>, t: System)
    requires Ceased(s) && Runs(s, steps, t)
    ensures Ceased(t) && |t.link.watches| <= |s.link.watches|
    decreases |steps|
  {
    if steps != [] {
      StepStaysCeased(s, steps[0]);
      ClosedStopsWatching(Next(s, steps[0]), steps[1..], t);
    }
  }
}
