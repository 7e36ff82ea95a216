/** The guarantees are about something: a lone client in an empty folder does get the lock. */
module LockExample {
  import opened Wrappers
  import opened Paths
  import opened Server
  import opened LockRecipe
  import opened LockSystem
  import opened LockShape

  /** A lone client that has been asked for nothing else and waits for `link`. */
  function Lone(s: System, value: Value, created: string, grants: nat, link: Link): Client {
    Client(NewLock(s.folder, value).(created := created, grants := grants), link, Some(s.tree.counter))
  }

  predicate Ready(s: System) {
    && s.issued == {} && s.clients == map[] && s.tree.counter <= MAX_SEQUENCE
    && ValidPath(s.folder) && s.folder in s.tree.nodes && ChildNames(s.tree, s.folder) == {}
  }

  lemma OneStep(s: System, step: Step)
    requires Enabled(s, step)
    ensures Runs(s, [step], Next(s, step))
  {
    assert Runs(Next(s, step), [], Next(s, step));
  }

  lemma {:induction false} RunsThen(s: System, a: seq<Step>, t: System, b: seq<Step>, u: System)
    requires Runs(s, a, t) && Runs(t, b, u)
    ensures Runs(s, a + b, u)
    decreases |a|
  {
    if a == [] {
      assert a + b == b;
    } else {
      RunsThen(Next(s, a[0]), a[1..], t, b, u);
      assert (a + b)[1..] == a[1..] + b;
    }
  }

  /** The only client of the system, its node created. */
  function Alone(s: System, value: Value, created: string, grants: nat, link: Link): System {
    System(s.folder, WithNode(s.tree, LockNode(s.folder, s.tree.counter), value).(counter := s.tree.counter + 1),
           {s.tree.counter}, map[0 := Lone(s, value, created, grants, link)])
  }

  lemma NodeIsNew(s: System)
    requires Ready(s)
    ensures CreateCode(s.tree, LockNode(s.folder, s.tree.counter)).Ok?
  {
    var name := LockName(s.tree.counter);
    LockNodeIsChild(s.folder, s.tree.counter);
    ChildNamesAreChildren(s.tree, s.folder, name);
    ParentOfJoin(s.folder, name);
  }

  lemma IsServed(s: System, value: Value, a: System)
    requires Ready(s) && CreateCode(s.tree, LockNode(s.folder, s.tree.counter)).Ok?
    requires a == s.(clients := map[0 := Client(NewLock(s.folder, value),
                                                Link([Create(LockPath(s.folder), value, true, true)], [], []), None)])
    ensures Enabled(a, ServeNext(0, [], Answered))
    ensures Next(a, ServeNext(0, [], Answered))
      == Alone(s, value, "", 0, Link([], [CreateReply(Ok, LockNode(s.folder, s.tree.counter))], []))
  {
    var o := Serve(a.tree, a.clients[0].link.out[0], [], Answered);
    assert Answer(a.clients[0].link, o) == Link([], [CreateReply(Ok, LockNode(s.folder, s.tree.counter))], []);
    assert s.issued + {s.tree.counter} == {s.tree.counter};
  }

  /** The client asks for its node and is told its name. */
  lemma NodeCreated(s: System, value: Value)
    requires Ready(s)
    ensures Runs(s, [Start(0, value, UP)] + [ServeNext(0, [], Answered)],
                 Alone(s, value, "", 0, Link([], [CreateReply(Ok, LockNode(s.folder, s.tree.counter))], [])))
  {
    var create := Create(LockPath(s.folder), value, true, true);
    var a := s.(clients := map[0 := Client(NewLock(s.folder, value), Link([create], [], []), None)]);
    OneStep(s, Start(0, value, UP));
    assert Next(s, Start(0, value, UP)) == a;
    NodeIsNew(s);
    OneStep(a, ServeNext(0, [], Answered));
    IsServed(s, value, a);
    RunsThen(s, [Start(0, value, UP)], a, [ServeNext(0, [], Answered)], Next(a, ServeNext(0, [], Answered)));
  }

  lemma OnlyChild(s: System, value: Value)
    requires Ready(s)
    ensures var t := WithNode(s.tree, LockNode(s.folder, s.tree.counter), value);
      Enumerates([LockName(s.tree.counter)], ChildNames(t, s.folder))
  {
    var t := WithNode(s.tree, LockNode(s.folder, s.tree.counter), value);
    LockNodeIsChild(s.folder, s.tree.counter);
    forall n
      ensures n in ChildNames(t, s.folder) <==> n in [LockName(s.tree.counter)]
    {
      ChildNamesAreChildren(t, s.folder, n);
      ChildNamesAreChildren(s.tree, s.folder, n);
      JoinInjective(s.folder, n, LockName(s.tree.counter));
    }
  }

  lemma AloneIsFirst(name: string)
    ensures PlaceOf([name], name).First?
  {
    PlaceSpec([name], name);
    LessIsTotal(name, name);
  }

  lemma Asks(s: System, value: Value)
    requires Ready(s)
    ensures var node := LockNode(s.folder, s.tree.counter);
      Runs(Alone(s, value, "", 0, Link([], [CreateReply(Ok, node)], [])), [Deliver(0, UP)],
           Alone(s, value, node, 0, Link([Children(s.folder)], [], [])))
  {
    var node := LockNode(s.folder, s.tree.counter);
    var a := Alone(s, value, "", 0, Link([], [CreateReply(Ok, node)], []));
    OneStep(a, Deliver(0, UP));
    assert Handled(a.clients[0], UP) == Lone(s, value, node, 0, Link([Children(s.folder)], [], []));
    assert Next(a, Deliver(0, UP)) == Alone(s, value, node, 0, Link([Children(s.folder)], [], []));
  }

  lemma FolderListing(s: System, value: Value)
    requires Ready(s)
    ensures var t := WithNode(s.tree, LockNode(s.folder, s.tree.counter), value).(counter := s.tree.counter + 1);
      s.folder in t.nodes && Enumerates([LockName(s.tree.counter)], ChildNames(t, s.folder))
  {
    var t := WithNode(s.tree, LockNode(s.folder, s.tree.counter), value);
    OnlyChild(s, value);
    assert ChildNames(t.(counter := s.tree.counter + 1), s.folder) == ChildNames(t, s.folder);
  }

  lemma ListingServed(s: System, value: Value, a: System, o: Outcome)
    requires a == Alone(s, value, LockNode(s.folder, s.tree.counter), 0, Link([Children(s.folder)], [], []))
    requires o == Outcome(a.tree, Silent, ChildrenReply(Ok, [LockName(s.tree.counter)]), None)
    ensures System(a.folder, o.tree, a.issued,
                   TellAll(a.clients, o.change)[0 := Served(a.clients[0], o, a.tree.counter)])
      == Alone(s, value, LockNode(s.folder, s.tree.counter), 0,
               Link([], [ChildrenReply(Ok, [LockName(s.tree.counter)])], []))
  {
    assert Answer(a.clients[0].link, o) == Link([], [o.reply], []);
  }

  lemma IsListed(s: System, value: Value)
    requires Ready(s)
    ensures var node, name := LockNode(s.folder, s.tree.counter), LockName(s.tree.counter);
      Runs(Alone(s, value, node, 0, Link([Children(s.folder)], [], [])), [ServeNext(0, [name], Answered)],
           Alone(s, value, node, 0, Link([], [ChildrenReply(Ok, [name])], [])))
  {
    var node, name := LockNode(s.folder, s.tree.counter), LockName(s.tree.counter);
    var a := Alone(s, value, node, 0, Link([Children(s.folder)], [], []));
    FolderListing(s, value);
    OneStep(a, ServeNext(0, [name], Answered));
    ListingServed(s, value, a, Serve(a.tree, Children(s.folder), [name], Answered));
  }

  lemma IsFirst(s: System, value: Value) returns (u: System)
    requires Ready(s)
    ensures var node, name := LockNode(s.folder, s.tree.counter), LockName(s.tree.counter);
      && Runs(Alone(s, value, node, 0, Link([], [ChildrenReply(Ok, [name])], [])), [Deliver(0, UP)], u)
      && 0 in u.clients && u.clients[0].lock.grants == 1 && u.clients[0].lock.created == node && node in u.tree.nodes
  {
    var node, name := LockNode(s.folder, s.tree.counter), LockName(s.tree.counter);
    var a := Alone(s, value, node, 0, Link([], [ChildrenReply(Ok, [name])], []));
    LockNodeIsChild(s.folder, s.tree.counter);
    AloneIsFirst(name);
    OneStep(a, Deliver(0, UP));
    u := Next(a, Deliver(0, UP));
    assert Handled(a.clients[0], UP).lock == a.clients[0].lock.(grants := 1);
  }

  lemma AloneIsGranted(s: System, value: Value) returns (steps: seq<Step>, t: System)
    requires Ready(s)
    ensures Initial(s) && Runs(s, steps, t) && 0 in t.clients
    ensures t.clients[0].lock.grants == 1 && t.clients[0].lock.created in t.tree.nodes
  {
    var node, name := LockNode(s.folder, s.tree.counter), LockName(s.tree.counter);
    var a := Alone(s, value, "", 0, Link([], [CreateReply(Ok, node)], []));
    var b := Alone(s, value, node, 0, Link([Children(s.folder)], [], []));
    var c := Alone(s, value, node, 0, Link([], [ChildrenReply(Ok, [name])], []));
    NodeCreated(s, value);
    Asks(s, value);
    IsListed(s, value);
    t := IsFirst(s, value);
    steps := [Start(0, value, UP)] + [ServeNext(0, [], Answered)];
    RunsThen(s, steps, a, [Deliver(0, UP)], b);
    RunsThen(s, steps + [Deliver(0, UP)], b, [ServeNext(0, [name], Answered)], c);
    steps := steps + [Deliver(0, UP)] + [ServeNext(0, [name], Answered)];
    RunsThen(s, steps, c, [Deliver(0, UP)], t);
    steps := steps + [Deliver(0, UP)];
  }
}
