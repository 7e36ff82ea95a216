/** What happens to lock clients whose folder is missing: whoever creates a missing level second
    fails, though nothing went wrong. */
module LockFolder {
  import opened Wrappers
  import opened Paths
  import opened Server
  import opened LockRecipe
  import opened LockSystem
  import opened LockShape
  import opened LockFailures

  lemma {:induction false} OneMoreCalm(s0: System, steps: seq<Step>, s: System, step: Step)
    requires CalmRun(s0, steps, s) && Enabled(s, step) && Calm(s, step)
    ensures CalmRun(s0, steps + [step], Next(s, step))
    decreases |steps|
  {
    var more := steps + [step];
    if steps == [] {
      assert more[0] == step && more[1..] == [];
      assert CalmRun(Next(s, step), [], Next(s, step));
    } else {
      assert more[0] == steps[0] && more[1..] == steps[1..] + [step];
      OneMoreCalm(Next(s0, steps[0]), steps[1..], s, step);
    }
  }

  // ----- the levels above the own node

  /** How many levels there are, the own node included. */
  function Levels(folder: string): nat {
    Slashes(LockPath(folder))
  }

  function Level(folder: string, d: nat): string
    requires Cut(LockPath(folder), d).Some?
  {
    Anc(LockPath(folder), d)
  }

  lemma LevelSpec(folder: string, d: nat)
    requires ValidPath(folder) && d < Levels(folder)
    ensures Cut(LockPath(folder), d).Some? && Cut(LockPath(folder), d + 1).Some?
    ensures PathParent(Level(folder, d), 1) == Some(Level(folder, d + 1))
    ensures ValidPath(Level(folder, d))
    ensures d + 1 == Levels(folder) ==> Level(folder, d + 1) == ""
  {
    PathsAreValid(folder, 0);
    LevelFits(LockPath(folder), d);
    CutBelow(LockPath(folder), d, d + 1);
    if d > 0 {
      CutAtNthSlash(LockPath(folder), d, Level(folder, d));
    }
  }

  lemma FolderIsFirst(folder: string)
    requires ValidPath(folder)
    ensures Levels(folder) > 1 && Cut(LockPath(folder), 1) == Some(folder)
  {
    ParentOfJoin(folder, "lock");
    TopLevel(folder);
    assert LockPath(folder) == folder + "/lock";
    SlashesSplit(folder, "/lock");
    assert Slashes("/lock") == 1 by {
      SlashesSplit("/", "lock");
      NoSlashCounts("lock");
      assert "/" + "lock" == "/lock" && Slashes("/") == 1;
    }
  }

  /** The folder is missing, and has no children. */
  ghost predicate Missing(s: System) {
    && Initial(s) && ValidPath(s.folder) && s.folder !in s.tree.nodes && s.tree.counter <= MAX_SEQUENCE
    && ChildNames(s.tree, s.folder) == {}
  }

  /** Level `m` is the highest that is missing. */
  predicate IsTop(s: System, m: nat) {
    && ValidPath(s.folder) && 1 <= m < Levels(s.folder)
    && (forall d :: 0 <= d <= m ==> Cut(LockPath(s.folder), d).Some?)
    && ParentExists(s.tree, Level(s.folder, m))
    && forall d :: 1 <= d < m ==> !ParentExists(s.tree, Level(s.folder, d))
  }

  lemma LevelsExist(folder: string, m: nat)
    requires ValidPath(folder) && m < Levels(folder)
    ensures forall d :: 0 <= d <= m ==> Cut(LockPath(folder), d).Some?
  {
    forall d | 0 <= d <= m
      ensures Cut(LockPath(folder), d).Some?
    {
      LevelSpec(folder, d);
    }
  }

  /** There is one, since the root always exists. */
  lemma FindTop(s: System, from: nat) returns (m: nat)
    requires ValidPath(s.folder) && 1 <= from < Levels(s.folder)
    requires forall d :: 0 <= d <= from ==> Cut(LockPath(s.folder), d).Some?
    requires forall d :: 1 <= d < from ==> !ParentExists(s.tree, Level(s.folder, d))
    ensures IsTop(s, m)
    decreases Levels(s.folder) - from
  {
    LevelSpec(s.folder, from);
    if ParentExists(s.tree, Level(s.folder, from)) {
      m := from;
    } else {
      m := FindTop(s, from + 1);
    }
  }

  // ----- two clients climb together

  /** A client that has not got its node yet. */
  function Outside(folder: string, depth: nat, link: Link): Client {
    Client(NewLock(folder, Blank).(depth := depth), link, None)
  }

  /** It asks for its node, or for the `d`-th level above it. */
  function Asks(folder: string, d: nat): Client
    requires Cut(LockPath(folder), d).Some?
  {
    if d == 0 then Outside(folder, 0, Link([Create(LockPath(folder), Blank, true, true)], [], []))
    else Outside(folder, d, Link([Create(Level(folder, d), Blank, false, false)], [], []))
  }

  function TurnedAway(folder: string, d: nat): Client {
    Outside(folder, d, Link([], [CreateReply(NoNode, "")], []))
  }

  /** Two clients, and a tree without the folder. */
  function Two(s: System, x: Client, y: Client): System {
    s.(clients := map[0 := x, 1 := y])
  }

  lemma BothStart(s: System) returns (steps: seq<Step>)
    requires Missing(s)
    ensures CalmRun(s, steps, Two(s, Asks(s.folder, 0), Asks(s.folder, 0)))
  {
    PathsAreValid(s.folder, 0);
    var s1 := s.(clients := map[0 := Asks(s.folder, 0)]);
    assert CalmRun(s, [], s);
    OneMoreCalm(s, [], s, Start(0, Blank, UP));
    assert Next(s, Start(0, Blank, UP)) == s1;
    OneMoreCalm(s, [] + [Start(0, Blank, UP)], s1, Start(1, Blank, UP));
    assert Next(s1, Start(1, Blank, UP)) == Two(s, Asks(s.folder, 0), Asks(s.folder, 0));
    steps := [] + [Start(0, Blank, UP)] + [Start(1, Blank, UP)];
  }

  /** Serving one of two clients without an effect on the tree. */
  lemma ServeOne(s: System, x: Client, y: Client, c: nat, reply: Message)
    requires c < 2 && (if c == 0 then x else y).link.out != []
    requires Perform(s.tree, (if c == 0 then x else y).link.out[0], []) == Outcome(s.tree, Silent, reply, None)
    requires (if c == 0 then x else y).link.out[0].Create? && s.tree.counter <= MAX_SEQUENCE
    ensures Enabled(Two(s, x, y), ServeNext(c, [], Answered))
    ensures var cl := if c == 0 then x else y;
      var h := cl.(link := Link(cl.link.out[1..], cl.link.inn + [reply], cl.link.watches));
      Next(Two(s, x, y), ServeNext(c, [], Answered)) == if c == 0 then Two(s, h, y) else Two(s, x, h)
  {
    var cl := if c == 0 then x else y;
    assert cl.link.watches + [] == cl.link.watches;
    assert TellAll(map[0 := x, 1 := y], Silent) == map[0 := x, 1 := y];
  }

  lemma NodeIsRefused(s: System)
    requires Missing(s)
    ensures Perform(s.tree, Create(LockPath(s.folder), Blank, true, true), [])
      == Outcome(s.tree, Silent, CreateReply(NoNode, ""), None)
  {
    var name := LockName(s.tree.counter);
    LockNodeIsChild(s.folder, s.tree.counter);
    ParentOfJoin(s.folder, name);
    ChildNamesAreChildren(s.tree, s.folder, name);
  }

  /** Below the highest missing level everything is missing. */
  lemma LevelIsMissing(s: System, m: nat, d: nat)
    requires Missing(s) && IsTop(s, m) && 1 <= d <= m
    ensures Level(s.folder, d) !in s.tree.nodes
  {
    if d == 1 {
      FolderIsFirst(s.folder);
    } else {
      LevelSpec(s.folder, d - 1);
      LevelSpec(s.folder, d);
    }
  }

  lemma LevelIsRefused(s: System, m: nat, d: nat)
    requires Missing(s) && IsTop(s, m) && d < m
    ensures Perform(s.tree, Asks(s.folder, d).link.out[0], []) == Outcome(s.tree, Silent, CreateReply(NoNode, ""), None)
  {
    if d == 0 {
      NodeIsRefused(s);
    } else {
      LevelIsMissing(s, m, d);
    }
  }

  lemma BothRefused(s: System, m: nat, d: nat, before: seq<Step>) returns (steps: seq<Step>)
    requires Missing(s) && IsTop(s, m) && d < m
    requires CalmRun(s, before, Two(s, Asks(s.folder, d), Asks(s.folder, d)))
    ensures CalmRun(s, steps, Two(s, TurnedAway(s.folder, d), TurnedAway(s.folder, d)))
  {
    var a, b := Asks(s.folder, d), TurnedAway(s.folder, d);
    LevelIsRefused(s, m, d);
    ServeOne(s, a, a, 0, CreateReply(NoNode, ""));
    assert a.(link := Link(a.link.out[1..], a.link.inn + [CreateReply(NoNode, "")], a.link.watches)) == b;
    OneMoreCalm(s, before, Two(s, a, a), ServeNext(0, [], Answered));
    ServeOne(s, b, a, 1, CreateReply(NoNode, ""));
    OneMoreCalm(s, before + [ServeNext(0, [], Answered)], Two(s, b, a), ServeNext(1, [], Answered));
    steps := before + [ServeNext(0, [], Answered)] + [ServeNext(1, [], Answered)];
  }

  lemma ClimbsOnce(folder: string, d: nat)
    requires ValidPath(folder) && d + 1 < Levels(folder)
    ensures Cut(LockPath(folder), d + 1).Some?
    ensures Handled(TurnedAway(folder, d), UP) == Asks(folder, d + 1)
  {
    LevelSpec(folder, d + 1);
    assert LockPath(folder) != "";
  }

  lemma DeliverFirst(s: System, x: Client, y: Client)
    requires x.link.inn != []
    ensures Enabled(Two(s, x, y), Deliver(0, UP)) && Next(Two(s, x, y), Deliver(0, UP)) == Two(s, Handled(x, UP), y)
  {
  }

  lemma DeliverSecond(s: System, x: Client, y: Client)
    requires y.link.inn != []
    ensures Enabled(Two(s, x, y), Deliver(1, UP)) && Next(Two(s, x, y), Deliver(1, UP)) == Two(s, x, Handled(y, UP))
  {
  }

  lemma BothClimb(s: System, m: nat, d: nat, before: seq<Step>) returns (steps: seq<Step>)
    requires Missing(s) && IsTop(s, m) && d < m
    requires CalmRun(s, before, Two(s, TurnedAway(s.folder, d), TurnedAway(s.folder, d)))
    ensures CalmRun(s, steps, Two(s, Asks(s.folder, d + 1), Asks(s.folder, d + 1)))
  {
    var a, b := TurnedAway(s.folder, d), Asks(s.folder, d + 1);
    ClimbsOnce(s.folder, d);
    DeliverFirst(s, a, a);
    OneMoreCalm(s, before, Two(s, a, a), Deliver(0, UP));
    DeliverSecond(s, b, a);
    OneMoreCalm(s, before + [Deliver(0, UP)], Two(s, b, a), Deliver(1, UP));
    steps := before + [Deliver(0, UP)] + [Deliver(1, UP)];
  }

  lemma {:induction false} BothReach(s: System, m: nat, d: nat) returns (steps: seq<Step>)
    requires Missing(s) && IsTop(s, m) && d <= m
    ensures CalmRun(s, steps, Two(s, Asks(s.folder, d), Asks(s.folder, d)))
  {
    if d == 0 {
      steps := BothStart(s);
    } else {
      steps := BothReach(s, m, d - 1);
      steps := BothRefused(s, m, d - 1, steps);
      steps := BothClimb(s, m, d - 1, steps);
    }
  }

  // ----- one of them fails

  /** The first of them creates the highest missing level. */
  lemma FirstWins(s: System, m: nat)
    requires Missing(s) && IsTop(s, m)
    ensures var b, p := Asks(s.folder, m), Level(s.folder, m);
      var won := Outside(s.folder, m, Link([], [CreateReply(Ok, p)], []));
      Next(Two(s, b, b), ServeNext(0, [], Answered)) == Two(s.(tree := WithNode(s.tree, p, Blank)), won, b)
  {
    var b, p := Asks(s.folder, m), Level(s.folder, m);
    LevelIsMissing(s, m, m);
    var o := Perform(s.tree, b.link.out[0], []);
    assert o.change == Fired(Created, p);
    assert Told(b, o.change) == b;
    assert Answer(b.link, o) == Link([], [CreateReply(Ok, p)], []);
  }

  /** The other is told that it exists, which it takes for a failure. */
  lemma SecondFails(s: System, m: nat, x: Client) returns (t: System)
    requires m > 0 && Cut(LockPath(s.folder), m).Some? && Level(s.folder, m) in s.tree.nodes
    requires s.tree.counter <= MAX_SEQUENCE
    ensures Enabled(Two(s, x, Asks(s.folder, m)), ServeNext(1, [], Answered))
    ensures var u := Next(Two(s, x, Asks(s.folder, m)), ServeNext(1, [], Answered));
      Enabled(u, Deliver(1, UP)) && t == Next(u, Deliver(1, UP)) && 1 in t.clients && t.clients[1].lock.failures == 1
  {
    var b := Asks(s.folder, m);
    ServeOne(s, x, b, 1, CreateReply(NodeExists, ""));
    t := Next(Next(Two(s, x, b), ServeNext(1, [], Answered)), Deliver(1, UP));
  }

  /** Two clients that find the folder missing, with any number of the levels above it: one of
      them fails, though nothing went wrong. */
  lemma MissingFolderFails(s: System) returns (steps: seq<Step>, t: System)
    requires Missing(s)
    ensures CalmRun(s, steps, t) && 1 in t.clients && t.clients[1].lock.failures == 1
  {
    FolderIsFirst(s.folder);
    LevelsExist(s.folder, 1);
    var m := FindTop(s, 1);
    steps := BothReach(s, m, m);
    var b, p := Asks(s.folder, m), Level(s.folder, m);
    FirstWins(s, m);
    OneMoreCalm(s, steps, Two(s, b, b), ServeNext(0, [], Answered));
    steps := steps + [ServeNext(0, [], Answered)];
    var won := Outside(s.folder, m, Link([], [CreateReply(Ok, p)], []));
    var s1 := s.(tree := WithNode(s.tree, p, Blank));
    t := SecondFails(s1, m, won);
    OneMoreCalm(s, steps, Two(s1, won, b), ServeNext(1, [], Answered));
    steps := steps + [ServeNext(1, [], Answered)];
    OneMoreCalm(s, steps, Next(Two(s1, won, b), ServeNext(1, [], Answered)), Deliver(1, UP));
    steps := steps + [Deliver(1, UP)];
  }

  ghost predicate NeverFails(s: System) {
    forall steps: seq<Step>, t: System, c: nat ::
      CalmRun(s, steps, t) && c in t.clients ==> t.clients[c].lock.failures == 0
  }

  /** Calm runs in a folder without children are free of failures if and only if the folder
      exists. */
  lemma FailureFreeIff(s: System)
    requires Initial(s) && ValidPath(s.folder) && ChildNames(s.tree, s.folder) == {}
    requires s.tree.counter <= MAX_SEQUENCE
    ensures NeverFails(s) <==> s.folder in s.tree.nodes
  {
    if s.folder in s.tree.nodes {
      forall steps: seq<Step>, t: System, c: nat | CalmRun(s, steps, t) && c in t.clients
        ensures t.clients[c].lock.failures == 0
      {
        NoFailureWithoutCause(s, steps, t, c);
      }
    } else {
      var steps, t := MissingFolderFails(s);
      assert CalmRun(s, steps, t) && t.clients[1].lock.failures != 0;
    }
  }
}
