/** When the version numbers a subscription delivers can go down: exactly if the node is deleted
    while the subscription has no watch on it and is still going to read it. */
module SubscribeVersions {
  import opened Paths
  import opened Server
  import opened SubscribeRecipe
  import opened SubscribeSystem
  import opened SubscribeTheorems

  /** A message that closes the subscription. */
  predicate Final(m: Message) {
    Bad(m) || (m.Event? && !m.kind.Created? && !m.kind.Changed? && m.kind != Session(true))
  }

  predicate Doomed(inn: seq<Message>) {
    exists i :: 0 <= i < |inn| && Final(inn[i])
  }

  /** What will be delivered before the first final message. */
  function Due(inn: seq<Message>): seq<Update> {
    if inn == [] || Final(inn[0]) then [] else Shown(inn[0]) + Due(inn[1..])
  }

  predicate AllFresh(us: seq<Update>) {
    forall u :: u in us && u.Present? ==> u.version == 0
  }

  /** Deleting the node now can make versions go down. */
  predicate Dangerous(s: System) {
    && !s.action.closed && !Doomed(s.link.inn)
    && s.action.path !in s.link.watches
    && !AllFresh(Seen(s))
  }

  predicate Safe(s: System, step: Step) {
    step == OthersDelete(s.action.path) ==> !Dangerous(s)
  }

  /** A run without a dangerous deletion. */
  ghost predicate SafeRun(s0: System, steps: seq<Step>, s: System)
    decreases |steps|
  {
    if steps == [] then s == s0
    else Enabled(s0, steps[0]) && Safe(s0, steps[0]) && SafeRun(Next(s0, steps[0]), steps[1..], s)
  }

  // ----- small facts

  lemma {:induction false} DueConcat(a: seq<Message>, b: seq<Message>)
    ensures Due(a + b) == if Doomed(a) then Due(a) else Due(a) + Due(b)
    ensures Doomed(a + b) <==> Doomed(a) || Doomed(b)
    ensures !Doomed(a) ==> Due(a) == Coming(a)
  {
    if a == [] {
      assert a + b == b;
    } else {
      assert (a + b)[1..] == a[1..] + b;
      DueConcat(a[1..], b);
      DoomedHead(a);
      DoomedHead(a + b);
    }
  }

  lemma DoomedHead(inn: seq<Message>)
    requires inn != []
    ensures Doomed(inn) <==> Final(inn[0]) || Doomed(inn[1..])
  {
    assert forall i :: 0 < i < |inn| ==> inn[1..][i - 1] == inn[i];
  }

  lemma {:induction false} QuietEvents(ms: seq<Message>)
    requires forall m :: m in ms ==> m.Event?
    ensures Due(ms) == []
  {
    if ms != [] {
      assert ms[0] in ms;
      QuietEvents(ms[1..]);
    }
  }

  lemma AscendsAfter(us: seq<Update>, u: Update)
    requires VersionsAscend(us) && (u.Missing? ==> us == [])
    requires forall v :: v in us && v.Present? && u.Present? ==> v.version <= u.version
    ensures VersionsAscend(us + [u])
  {
    forall i | 0 <= i < |us| && us[i].Present?
      ensures u.Present? && us[i].version <= u.version
    {
      assert us[i] in us;
    }
  }

  lemma AscendsBefore(us: seq<Update>, vs: seq<Update>)
    requires VersionsAscend(us + vs)
    ensures VersionsAscend(us)
  {
    assert forall i :: 0 <= i < |us| ==> (us + vs)[i] == us[i];
  }

  // ----- safe runs

  /** No state that has been seen was written more often than the node is now. */
  predicate Bounded(t: Tree, path: string, us: seq<Update>) {
    forall u :: u in us && u.Present? ==> u.version <= if path in t.nodes then t.nodes[path].version else 0
  }

  function Pending(s: System): seq<Update> {
    s.action.delivered + if s.action.closed then [] else Due(s.link.inn)
  }

  ghost predicate Ascending(s: System) {
    && VersionsAscend(Pending(s))
    && (!s.action.closed && !Doomed(s.link.inn) ==> Bounded(s.tree, s.action.path, Seen(s)))
  }

  /** A tree that is no older, and messages that show nothing. */
  lemma QuietKeepsAscending(s: System, s': System, ms: seq<Message>)
    requires Ascending(s) && s'.action == s.action && s'.link.inn == s.link.inn + ms
    requires forall m :: m in ms ==> m.Event?
    requires !Doomed(s'.link.inn) && !s.action.closed && Bounded(s.tree, s.action.path, Seen(s)) ==>
               Bounded(s'.tree, s.action.path, Seen(s))
    ensures Ascending(s')
  {
    DueConcat(s.link.inn, ms);
    QuietEvents(ms);
    ComingConcat(s.link.inn, ms);
    EventsShowNothing(ms);
    assert Pending(s') == Pending(s) && Seen(s') == Seen(s);
  }

  lemma OthersKeepAscending(s: System, t': Tree, change: Change)
    requires Ascending(s) && Traffic(s) && change.Fired?
    requires forall p :: p != change.path ==> (p in t'.nodes <==> p in s.tree.nodes)
    requires forall p :: p != change.path && p in s.tree.nodes ==> t'.nodes[p] == s.tree.nodes[p]
    requires change.path == s.action.path && Bounded(s.tree, s.action.path, Seen(s)) ==>
               || Bounded(t', s.action.path, Seen(s))
               || (change.kind.Deleted? && (s.action.closed || Doomed(s.link.inn) || s.action.path in s.link.watches))
    ensures Ascending(Others(s, t', change))
  {
    var ms := Events(s.link.watches, change.kind, change.path);
    EventsSpec(s.link.watches, change.kind, change.path);
    DueConcat(s.link.inn, ms);
    if change.kind.Deleted? && change.path in s.link.watches {
      assert Event(change.kind, change.path) in ms;
      assert Doomed(ms);
    }
    QuietKeepsAscending(s, Others(s, t', change), ms);
  }

  lemma ServeKeepsAscending(s: System, fate: Fate)
    requires Inv(s) && Ascending(s) && s.link.out != []
    ensures Ascending(Next(s, ServeNext(fate)))
  {
    ServeShows(s, fate);
    var r := s.link.out[0];
    var o := Serve(s.tree, r, [], fate);
    assert Lookup(s.action.path, r) && r in s.link.out;
    var s' := Next(s, ServeNext(fate));
    AnswerKeepsAscending(s, r, o);
    assert s'.link.inn == s.link.inn + [o.reply];
    assert Pending(s') == Pending(s.(link := s.link.(inn := s.link.inn + [o.reply])));
  }

  /** Showing the node's current state, or its absence at first, keeps versions ascending. */
  lemma CurrentKeepsAscending(t: Tree, path: string, us: seq<Update>, u: Update)
    requires VersionsAscend(us) && Bounded(t, path, us) && (u.Missing? ==> us == [])
    requires u.Present? ==> u == Current(t, path)
    ensures VersionsAscend(us + [u]) && Bounded(t, path, us + [u])
  {
    AscendsAfter(us, u);
  }

  lemma ShownIsCurrent(s: System, r: Request, o: Outcome)
    requires Truthful(s, r, o) && (r.Get? || (r.Exists? && Seen(s) == [])) && Shown(o.reply) != []
    ensures |Shown(o.reply)| == 1
    ensures var u := Shown(o.reply)[0];
      (u.Missing? ==> Seen(s) == []) && (u.Present? ==> u == Current(s.tree, s.action.path))
  {
  }

  /** A message behind a final one, or a final one itself, changes nothing that is due. */
  lemma IdleAnswer(s: System, m: Message)
    requires Ascending(s) && (s.action.closed || Doomed(s.link.inn) || Final(m))
    ensures Ascending(s.(link := s.link.(inn := s.link.inn + [m])))
  {
    var s' := s.(link := s.link.(inn := s.link.inn + [m]));
    DueConcat(s.link.inn, [m]);
    DoomedHead([m]);
    assert Pending(s') == Pending(s);
  }

  lemma AnswerKeepsAscending(s: System, r: Request, o: Outcome)
    requires Ascending(s) && Truthful(s, r, o) && (r.Get? || (r.Exists? && Seen(s) == []))
    ensures Ascending(s.(link := s.link.(inn := s.link.inn + [o.reply])))
  {
    var s' := s.(link := s.link.(inn := s.link.inn + [o.reply]));
    if s.action.closed || Doomed(s.link.inn) || Final(o.reply) {
      IdleAnswer(s, o.reply);
    } else {
      DueConcat(s.link.inn, [o.reply]);
      SeenGrows(s, o.reply);
      assert Due([o.reply]) == Shown(o.reply) + Due([]);
      assert Pending(s') == Seen(s') && Pending(s) == Seen(s);
      if Shown(o.reply) == [] {
        assert Seen(s') == Seen(s);
      } else {
        ShownIsCurrent(s, r, o);
        CurrentKeepsAscending(s.tree, s.action.path, Seen(s), Shown(o.reply)[0]);
        assert Seen(s') == Seen(s) + [Shown(o.reply)[0]];
      }
    }
  }

  lemma FinalCloses(a: Subscription, m: Message, up: bool)
    requires Final(m)
    ensures OnMessage(a, m, up).action.closed
  {
  }

  lemma DeliverPends(s: System, up: bool)
    requires s.link.inn != [] && !Next(s, Deliver(up)).action.closed
    ensures Pending(Next(s, Deliver(up))) == Pending(s)
    ensures Doomed(Next(s, Deliver(up)).link.inn) == Doomed(s.link.inn)
  {
    var s' := Next(s, Deliver(up));
    var m := s.link.inn[0];
    ReactionShows(s.action, m, up);
    if Final(m) {
      FinalCloses(s.action, m, up);
    }
    DoomedHead(s.link.inn);
    var d, rest := s.action.delivered, Due(s.link.inn[1..]);
    assert d + (Shown(m) + rest) == d + Shown(m) + rest;
  }

  lemma DeliverKeepsAscending(s: System, up: bool)
    requires Ascending(s) && s.link.inn != []
    ensures Ascending(Next(s, Deliver(up)))
  {
    var s' := Next(s, Deliver(up));
    DeliverShows(s, up);
    if s'.action.closed {
      AscendsBefore(s.action.delivered, if s.action.closed then [] else Due(s.link.inn));
      assert Pending(s') == s.action.delivered;
    } else {
      DeliverPends(s, up);
    }
  }

  lemma StepKeepsAscending(s: System, step: Step)
    requires Inv(s) && Ascending(s) && Enabled(s, step) && Safe(s, step)
    ensures Ascending(Next(s, step))
  {
    match step {
      case ServeNext(fate) => ServeKeepsAscending(s, fate);
      case Deliver(up) => DeliverKeepsAscending(s, up);
      case CloseScope => AscendsBefore(s.action.delivered, if s.action.closed then [] else Due(s.link.inn));
      case SessionEvent(connected) =>
        SessionEventsSpec(s.link.watches, connected);
        QuietKeepsAscending(s, Next(s, step), SessionEvents(s.link.watches, connected));
      case Cancel => AscendsBefore(s.action.delivered, if s.action.closed then [] else Due(s.link.inn));
      case OthersCreate(path, value) => OthersKeepAscending(s, WithNode(s.tree, path, value), Fired(Created, path));
      case OthersPut(path, value) => OthersKeepAscending(s, WithValue(s.tree, path, value), Fired(Changed, path));
      case OthersDelete(path) => OthersKeepAscending(s, WithoutNode(s.tree, path), Fired(Deleted, path));
    }
  }

  lemma {:induction false} SafeRunAscends(s0: System, steps: seq<Step>, s: System)
    requires Inv(s0) && Ascending(s0) && SafeRun(s0, steps, s)
    ensures Inv(s) && Ascending(s)
    decreases |steps|
  {
    if steps != [] {
      StepKeepsInv(s0, steps[0]);
      StepKeepsAscending(s0, steps[0]);
      SafeRunAscends(Next(s0, steps[0]), steps[1..], s);
    }
  }

  /** Without a dangerous deletion, delivered versions never go down. */
  lemma {:induction false} VersionsAscendWhenSafe(s0: System, steps: seq<Step>, s: System)
    requires Initial(s0) && SafeRun(s0, steps, s)
    ensures VersionsAscend(s.action.delivered)
  {
    ReachedSafely(s0, steps, s);
    AscendsBefore(s.action.delivered, if s.action.closed then [] else Due(s.link.inn));
  }

  // ----- dangerous deletions

  lemma {:induction false} SafeRunThen(s0: System, a: seq<Step>, s: System, b: seq<Step>, t: System)
    requires SafeRun(s0, a, s) && SafeRun(s, b, t)
    ensures SafeRun(s0, a + b, t)
    decreases |a|
  {
    if a == [] {
      assert a + b == b;
    } else {
      assert (a + b)[1..] == a[1..] + b;
      SafeRunThen(Next(s0, a[0]), a[1..], s, b, t);
    }
  }

  lemma OneSafeStep(s: System, step: Step)
    requires Enabled(s, step) && Safe(s, step)
    ensures SafeRun(s, [step], Next(s, step))
  {
    assert SafeRun(Next(s, step), [], Next(s, step));
  }

  predicate HasEvent(inn: seq<Message>) {
    exists i :: 0 <= i < |inn| && inn[i].Event?
  }

  lemma HasEventHead(inn: seq<Message>)
    requires inn != []
    ensures HasEvent(inn) <==> inn[0].Event? || HasEvent(inn[1..])
  {
    assert forall i :: 0 < i < |inn| ==> inn[1..][i - 1] == inn[i];
  }

  /** An open subscription can be handed everything that is on its way, and then reads again if
      anything told it to. */
  lemma {:induction false} DeliverAll(s: System) returns (steps: seq<Step>, t: System)
    requires Inv(s) && !s.action.closed && !Doomed(s.link.inn) && ValidPath(s.action.path)
    ensures SafeRun(s, steps, t) && Inv(t) && !t.action.closed && t.link.inn == []
    ensures t.tree == s.tree && t.action.path == s.action.path && t.action.delivered == Seen(s)
    ensures s.link.out != [] || HasEvent(s.link.inn) ==> t.link.out != []
    decreases |s.link.inn|
  {
    if s.link.inn == [] {
      steps, t := [], s;
      assert Seen(s) == s.action.delivered;
    } else {
      var s1 := Next(s, Deliver(true));
      DoomedHead(s.link.inn);
      HasEventHead(s.link.inn);
      DeliverShows(s, true);
      StepKeepsInv(s, Deliver(true));
      OneSafeStep(s, Deliver(true));
      var rest;
      rest, t := DeliverAll(s1);
      steps := [Deliver(true)] + rest;
      SafeRunThen(s, [Deliver(true)], s1, rest, t);
    }
  }

  lemma Unwatched(watches: seq<string>, path: string)
    requires forall w :: w in watches ==> w == path
    ensures watches == [] || path in watches
  {
    if watches != [] {
      assert watches[0] in watches;
    }
  }

  lemma UnseenChange(s: System, t': Tree, change: Change)
    requires s.link.watches == []
    ensures Others(s, t', change) == s.(tree := t')
  {
    assert s.link.inn + [] == s.link.inn;
  }

  function Replaced(t: Tree, path: string): Tree {
    WithNode(WithoutNode(t, path), path, Blank)
  }

  lemma ReplacedSpec(t: Tree, path: string)
    requires path in t.nodes && ParentExists(t, path) && ChildNames(t, path) == {}
    ensures CreateCode(WithoutNode(t, path), path).Ok?
    ensures path in Replaced(t, path).nodes && Replaced(t, path).nodes[path].version == 0
    ensures ChildNames(Replaced(t, path), path) == {}
  {
    CutAtNthSlash(path, 1, PathParent(path, 1).value);
    assert Replaced(t, path).nodes.Keys == t.nodes.Keys;
    assert ChildNames(Replaced(t, path), path) == ChildNames(t, path);
  }

  /** The node is replaced behind the subscription's back. */
  lemma Replace(s: System)
    requires Inv(s) && s.action.path in s.tree.nodes && s.action.path !in s.link.watches
    requires ParentExists(s.tree, s.action.path) && ChildNames(s.tree, s.action.path) == {}
    ensures var t := s.(tree := Replaced(s.tree, s.action.path));
      Inv(t) && SafeRun(Next(s, OthersDelete(s.action.path)), [OthersCreate(s.action.path, Blank)], t)
  {
    var path := s.action.path;
    Unwatched(s.link.watches, path);
    ReplacedSpec(s.tree, path);
    var s1 := s.(tree := WithoutNode(s.tree, path));
    UnseenChange(s, s1.tree, Fired(Deleted, path));
    UnseenChange(s1, Replaced(s.tree, path), Fired(Created, path));
    StepKeepsInv(s, OthersDelete(path));
    StepKeepsInv(s1, OthersCreate(path, Blank));
    OneSafeStep(s1, OthersCreate(path, Blank));
  }

  /** The next read is answered and shown. */
  lemma ReadAgain(s: System) returns (steps: seq<Step>, t: System)
    requires Inv(s) && !s.action.closed && s.link.inn == [] && s.link.out != [] && s.action.delivered != []
    requires s.action.path in s.tree.nodes && ChildNames(s.tree, s.action.path) == {}
    ensures SafeRun(s, steps, t)
    ensures t.action.delivered == s.action.delivered + [Current(s.tree, s.action.path)]
  {
    var r := s.link.out[0];
    assert Lookup(s.action.path, r) && r in s.link.out && r.Get?;
    var s1 := Next(s, ServeNext(Answered));
    var node := s.tree.nodes[s.action.path];
    assert s1.link.inn == [GetReply(Ok, node.value, node.version, node.epoch, false)];
    t := Next(s1, Deliver(true));
    steps := [ServeNext(Answered)] + [Deliver(true)];
    OneSafeStep(s, ServeNext(Answered));
    OneSafeStep(s1, Deliver(true));
    SafeRunThen(s, [ServeNext(Answered)], s1, [Deliver(true)], t);
  }

  lemma BlindIsFresh(s: System)
    requires BlindShape(s) && s.blind && !s.action.closed
    ensures AllFresh(Seen(s))
  {
    if s.link.inn != [] {
      assert Coming(s.link.inn) == [Missing] + Coming([]);
    }
  }

  /** An open subscription without a watch is about to look again. */
  lemma LooksAgain(s: System)
    requires Inv(s) && Dangerous(s)
    ensures s.link.out != [] || HasEvent(s.link.inn)
    ensures Seen(s) != []
  {
    if s.blind {
      BlindIsFresh(s);
    }
    assert Awake(s);
    if s.link.out == [] {
      var m :| m in s.link.inn && (m.Event? || Bad(m));
      var i :| 0 <= i < |s.link.inn| && s.link.inn[i] == m;
      assert !Final(s.link.inn[i]);
    }
  }

  /** A dangerous deletion can always be followed by a delivery that goes down. */
  lemma DangerousGoesDown(s: System) returns (steps: seq<Step>, t: System)
    requires Inv(s) && Dangerous(s) && ValidPath(s.action.path) && s.action.path in s.tree.nodes
    requires ParentExists(s.tree, s.action.path) && ChildNames(s.tree, s.action.path) == {}
    ensures SafeRun(Next(s, OthersDelete(s.action.path)), steps, t) && !VersionsAscend(t.action.delivered)
  {
    var path := s.action.path;
    var s1 := Next(s, OthersDelete(path));
    var s2 := s.(tree := Replaced(s.tree, path));
    Replace(s);
    ReplacedSpec(s.tree, path);
    LooksAgain(s);
    var more, s3 := DeliverAll(s2);
    var last;
    last, t := ReadAgain(s3);
    steps := [OthersCreate(path, Blank)] + more + last;
    SafeRunThen(s1, [OthersCreate(path, Blank)], s2, more, s3);
    SafeRunThen(s1, [OthersCreate(path, Blank)] + more, s3, last, t);
    var u :| u in Seen(s) && u.Present? && u.version > 0;
    var i :| 0 <= i < |Seen(s)| && Seen(s)[i] == u;
    assert t.action.delivered[i] == u && t.action.delivered[|Seen(s)|] == Current(s2.tree, path);
  }

  // ----- the exact condition

  lemma {:induction false} OpenIsValid(s0: System, steps: seq<Step>, s: System)
    requires Inv(s0) && SafeRun(s0, steps, s) && (!s0.action.closed ==> ValidPath(s0.action.path))
    ensures !s.action.closed ==> ValidPath(s.action.path)
    decreases |steps|
  {
    if steps != [] {
      var s1 := Next(s0, steps[0]);
      if steps[0].Deliver? {
        DeliverShows(s0, steps[0].up);
      }
      StepKeepsInv(s0, steps[0]);
      OpenIsValid(s1, steps[1..], s);
    }
  }

  lemma HarmlessNeverGoesDown(s: System, more: seq<Step>, t: System)
    requires Inv(s) && Ascending(s) && s.action.path in s.tree.nodes && !Dangerous(s)
    requires SafeRun(Next(s, OthersDelete(s.action.path)), more, t)
    ensures VersionsAscend(t.action.delivered)
  {
    StepKeepsInv(s, OthersDelete(s.action.path));
    StepKeepsAscending(s, OthersDelete(s.action.path));
    SafeRunAscends(Next(s, OthersDelete(s.action.path)), more, t);
    AscendsBefore(t.action.delivered, if t.action.closed then [] else Due(t.link.inn));
  }

  lemma ReachedSafely(s0: System, steps: seq<Step>, s: System)
    requires Initial(s0) && SafeRun(s0, steps, s)
    ensures Inv(s) && Ascending(s) && (!s.action.closed ==> ValidPath(s.action.path))
  {
    InitialIsGood(s0);
    assert Seen(s0) == [] && Pending(s0) == [];
    SafeRunAscends(s0, steps, s);
    OpenIsValid(s0, steps, s);
  }

  ghost predicate StaysUp(s: System) {
    forall more: seq<Step>, t: System :: SafeRun(s, more, t) ==> VersionsAscend(t.action.delivered)
  }

  /** At any point of a run without a dangerous deletion so far: deleting the node now can lead
      to versions that go down if and only if the deletion is dangerous. */
  lemma {:induction false} DeleteHarmlessIff(s0: System, steps: seq<Step>, s: System)
    requires Initial(s0) && SafeRun(s0, steps, s) && s.action.path in s.tree.nodes
    requires ParentExists(s.tree, s.action.path) && ChildNames(s.tree, s.action.path) == {}
    ensures StaysUp(Next(s, OthersDelete(s.action.path))) <==> !Dangerous(s)
  {
    ReachedSafely(s0, steps, s);
    if Dangerous(s) {
      var more, t := DangerousGoesDown(s);
    } else {
      forall more: seq<Step>, t: System | SafeRun(Next(s, OthersDelete(s.action.path)), more, t)
        ensures VersionsAscend(t.action.delivered)
      {
        HarmlessNeverGoesDown(s, more, t);
      }
    }
  }
}
