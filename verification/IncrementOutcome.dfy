/** What a caller may conclude from the outcome of an increment. */
module IncrementOutcome {
  import opened Wrappers
  import opened Paths
  import opened Server
  import opened IncrementRecipe
  import opened IncrementSystem
  import opened IncrementTheorems

  // ----- failures

  /** None of client `c`'s answers is lost. */
  predicate Sure(step: Step, c: nat) {
    !(step.ServeNext? && step.c == c && step.fate.Lost?)
  }

  /** And its caller does not give up. */
  predicate Patient(step: Step, c: nat) {
    Sure(step, c) && !(step.CloseScope? && step.c == c)
  }

  ghost predicate SureRun(s0: System, steps: seq<Step>, s: System, c: nat)
    decreases |steps|
  {
    if steps == [] then s == s0
    else Enabled(s0, steps[0]) && Sure(steps[0], c) && SureRun(Next(s0, steps[0]), steps[1..], s, c)
  }

  ghost predicate PatientRun(s0: System, steps: seq<Step>, s: System, c: nat)
    decreases |steps|
  {
    if steps == [] then s == s0
    else Enabled(s0, steps[0]) && Patient(steps[0], c) && PatientRun(Next(s0, steps[0]), steps[1..], s, c)
  }

  predicate BadNews(m: Message) {
    (m.PutReply? || m.CreateReply?) && !m.rc.Ok?
  }

  /** A failure, told or on its way, means that nothing was written. */
  ghost predicate Reliable(s: System, c: nat, cl: Client) {
    && (cl.action.failures > 0 ==> Stage(cl, 0, 0) && !HasWritten(s, c))
    && (Stage(cl, 0, 1) && BadNews(cl.link.inn[0]) ==> !HasWritten(s, c))
  }

  /** An open client is at work, or was told exactly one thing. */
  ghost predicate Settled(s: System, c: nat, cl: Client) {
    if Stage(cl, 0, 0) then
      if cl.action.told.Some? then cl.action.failures == 0 else cl.action.failures == 1 && !HasWritten(s, c)
    else !cl.action.closed && cl.action.failures == 0
  }

  lemma SameLog(s: System, s': System, c: nat, cl: Client)
    requires Extends(s, s') && (|s'.log| > |s.log| ==> s'.log[|s.log|].client != c)
    ensures Reliable(s, c, cl) ==> Reliable(s', c, cl)
    ensures Settled(s, c, cl) ==> Settled(s', c, cl)
  {
    HasWrittenStays(s, s', c);
  }

  lemma BegunOutcome(s: System, c: nat, operand: Value, up: bool)
    requires OneWriteEach(s) && c !in s.clients
    ensures var r := Run(s.path, operand, up);
      var cl := Client(r.action, Link(r.sent, [], []), operand);
      Reliable(s, c, cl) && Settled(s, c, cl)
  {
    NobodyWroteBefore(s, c);
  }

  lemma HandledOutcome(s: System, c: nat, cl: Client, up: bool)
    requires Local(s, c, cl) && Reliable(s, c, cl) && cl.link.inn != []
    ensures Reliable(s, c, Handled(cl, up))
    ensures Settled(s, c, cl) ==> Settled(s, c, Handled(cl, up))
  {
    assert Stage(cl, 0, 1);
  }

  /** Unless it is lost, the answer to a write tells whether it took effect. */
  lemma AnswerIsNews(t: Tree, r: Request, fate: Fate)
    requires !fate.Lost? && (r.Get? || r.Put? || (r.Create? && !r.sequence))
    ensures var o := Serve(t, r, [], fate); o.watch.Some? ==> r.Get? && r.watch
    ensures var o := Serve(t, r, [], fate); BadNews(o.reply) ==> o.change.Silent?
  {
  }

  lemma ServedOutcome(s: System, c: nat, fate: Fate)
    requires Inv(s) && Enabled(s, ServeNext(c, fate)) && !fate.Lost? && Reliable(s, c, s.clients[c])
    ensures var s' := Next(s, ServeNext(c, fate));
      && Reliable(s', c, s'.clients[c])
      && (Settled(s, c, s.clients[c]) ==> Settled(s', c, s'.clients[c]))
  {
    var cl := s.clients[c];
    assert Local(s, c, cl) && Stage(cl, 1, 0) && !HasWritten(s, c);
    AnswerIsNews(s.tree, cl.link.out[0], fate);
    AnswerAlone(cl.link, Serve(s.tree, cl.link.out[0], [], fate));
  }

  ghost predicate Tracked(s: System, c: nat) {
    c in s.clients ==> Reliable(s, c, s.clients[c])
  }

  lemma StepKeepsTracked(s: System, step: Step, c: nat)
    requires Inv(s) && Tracked(s, c) && Enabled(s, step) && Sure(step, c)
    ensures Tracked(Next(s, step), c)
    ensures Patient(step, c) && (c in s.clients ==> Settled(s, c, s.clients[c])) ==>
              (c in Next(s, step).clients ==> Settled(Next(s, step), c, Next(s, step).clients[c]))
  {
    var s' := Next(s, step);
    match step {
      case Begin(d, operand, up) =>
        if d == c {
          BegunOutcome(s, c, operand, up);
          var r := Run(s.path, operand, up);
          SameLog(s, s', c, Client(r.action, Link(r.sent, [], []), operand));
        } else if c in s.clients {
          SameLog(s, s', c, s.clients[c]);
        }
      case ServeNext(d, fate) =>
        if d == c {
          ServedOutcome(s, c, fate);
        } else if c in s.clients {
          assert s'.log[..|s.log|] == s.log;
          SameLog(s, s', c, s.clients[c]);
        }
      case Deliver(d, up) =>
        if d == c {
          assert Local(s, c, s.clients[c]);
          HandledOutcome(s, c, s.clients[c], up);
          SameLog(s, s', c, Handled(s.clients[c], up));
        } else if c in s.clients {
          SameLog(s, s', c, s.clients[c]);
        }
      case CloseScope(d) =>
        if c in s.clients {
          SameLog(s, s', c, s.clients[c]);
        }
      case Elsewhere(tree) =>
        if c in s.clients {
          SameLog(s, s', c, s.clients[c]);
        }
    }
  }

  lemma {:induction false} SureRunKeeps(s0: System, steps: seq<Step>, s: System, c: nat)
    requires Inv(s0) && Tracked(s0, c) && SureRun(s0, steps, s, c)
    ensures Inv(s) && Tracked(s, c)
    decreases |steps|
  {
    if steps != [] {
      StepKeepsInv(s0, steps[0]);
      StepKeepsTracked(s0, steps[0], c);
      SureRunKeeps(Next(s0, steps[0]), steps[1..], s, c);
    }
  }

  lemma {:induction false} PatientRunKeeps(s0: System, steps: seq<Step>, s: System, c: nat)
    requires Inv(s0) && Tracked(s0, c) && (c in s0.clients ==> Settled(s0, c, s0.clients[c]))
    requires PatientRun(s0, steps, s, c)
    ensures Inv(s) && Tracked(s, c) && (c in s.clients ==> Settled(s, c, s.clients[c]))
    decreases |steps|
  {
    if steps != [] {
      StepKeepsInv(s0, steps[0]);
      StepKeepsTracked(s0, steps[0], c);
      PatientRunKeeps(Next(s0, steps[0]), steps[1..], s, c);
    }
  }

  /** In every run in which none of its answers is lost, a client that was told a failure has not
      written. */
  lemma {:induction false} FailureMeansUnwritten(s0: System, steps: seq<Step>, s: System, c: nat)
    requires Initial(s0) && SureRun(s0, steps, s, c)
    requires c in s.clients && s.clients[c].action.failures > 0
    ensures !HasWritten(s, c)
  {
    SureRunKeeps(s0, steps, s, c);
  }

  /** If its caller does not give up either, then once nothing is in flight the caller was told
      exactly one thing: success if and only if the operand was added. */
  lemma {:induction false} OutcomeIsTrue(s0: System, steps: seq<Step>, s: System, c: nat)
    requires Initial(s0) && PatientRun(s0, steps, s, c) && c in s.clients && Stage(s.clients[c], 0, 0)
    ensures s.clients[c].action.told.Some? <==> HasWritten(s, c)
    ensures s.clients[c].action.failures == if HasWritten(s, c) then 0 else 1
  {
    PatientRunKeeps(s0, steps, s, c);
    assert Local(s, c, s.clients[c]);
  }

  // ----- told once

  ghost predicate LeftOpen(steps: seq<Step>, c: nat) {
    CloseScope(c) !in steps
  }

  /** The caller has been told exactly one thing if nothing is under way, and nothing otherwise. */
  predicate Told(cl: Client) {
    && (if cl.action.told.Some? then 1 else 0) + cl.action.failures == (if Stage(cl, 0, 0) then 1 else 0)
    && (cl.action.closed <==> cl.action.failures == 1)
  }

  lemma HandlingTells(s: System, c: nat, cl: Client, up: bool)
    requires Local(s, c, cl) && Told(cl) && cl.link.inn != []
    ensures Told(Handled(cl, up))
  {
    assert Stage(cl, 0, 1);
    assert cl.link.inn[1..] == [];
  }

  lemma StepKeepsTold(s: System, step: Step, c: nat)
    requires Inv(s) && Enabled(s, step) && step != CloseScope(c)
    requires c in s.clients ==> Told(s.clients[c])
    ensures c in Next(s, step).clients ==> Told(Next(s, step).clients[c])
  {
    if c in s.clients {
      assert Local(s, c, s.clients[c]);
    }
    match step
    case Begin(_, _, _) =>
    case ServeNext(d, fate) =>
      if d == c {
        AnswerAlone(s.clients[c].link, Serve(s.tree, s.clients[c].link.out[0], [], fate));
      }
    case Deliver(d, up) =>
      if d == c {
        HandlingTells(s, c, s.clients[c], up);
      }
    case CloseScope(_) =>
    case Elsewhere(_) =>
  }

  lemma {:induction false} RunsKeepTold(s0: System, steps: seq<Step>, s: System, c: nat)
    requires Inv(s0) && Runs(s0, steps, s) && LeftOpen(steps, c)
    requires c in s0.clients ==> Told(s0.clients[c])
    ensures Inv(s) && (c in s.clients ==> Told(s.clients[c]))
    decreases |steps|
  {
    if steps != [] {
      StepKeepsInv(s0, steps[0]);
      StepKeepsTold(s0, steps[0], c);
      RunsKeepTold(Next(s0, steps[0]), steps[1..], s, c);
    }
  }

  /** Whatever is lost: a caller that does not give up is told exactly one thing, a sum or a
      failure, the moment nothing of its client is under way any more. */
  lemma ToldOnce(s0: System, steps: seq<Step>, s: System, c: nat)
    requires Initial(s0) && Runs(s0, steps, s) && LeftOpen(steps, c) && c in s.clients
    ensures (if s.clients[c].action.told.Some? then 1 else 0) + s.clients[c].action.failures
      == if Stage(s.clients[c], 0, 0) then 1 else 0
  {
    RunsKeepTold(s0, steps, s, c);
  }

  lemma HandlingAsks(a: Increment, m: Message, up: bool)
    ensures OnMessage(a, m, up).sent != [] ==> up && ValidPath(a.path)
  {
  }

  lemma BeginAsks(path: string, operand: Value, up: bool)
    ensures Run(path, operand, up).sent != [] ==> up && ValidPath(path)
  {
  }

  lemma OneMessage(s: System, c: nat, cl: Client)
    requires Local(s, c, cl) && cl.link.inn != []
    ensures Stage(cl, 0, 1) && cl.action.path == s.path
  {
  }

  /** A request is only made if the connection takes it and the path is valid. */
  lemma AskedOnlyIfPossible(s0: System, steps: seq<Step>, s: System, step: Step, c: nat)
    requires Initial(s0) && Runs(s0, steps, s) && Enabled(s, step)
    requires c in Next(s, step).clients && Next(s, step).clients[c].link.out != []
    ensures step.Begin? && step.c == c ==> step.up && ValidPath(s.path)
    ensures step.Deliver? && step.c == c ==> step.up && ValidPath(s.path)
  {
    if step.Begin? {
      BeginAsks(s.path, step.operand, step.up);
    } else if step.Deliver? && step.c == c {
      RunsKeepInv(s0, steps, s);
      OneMessage(s, c, s.clients[c]);
      HandlingAsks(s.clients[c].action, s.clients[c].link.inn[0], step.up);
    }
  }

  /** A read that nothing can be added to: it failed, or showed children or no number. */
  predicate Unusable(m: Message) {
    m.GetReply? && !m.rc.NoNode? && !(m.rc.Ok? && !m.hasChildren && IsNumber(m.value))
  }

  ghost predicate Doomed(s: System, c: nat) {
    && c in s.clients && !HasWritten(s, c) && s.clients[c].action.told.None?
    && (Stage(s.clients[c], 0, 0) || (Stage(s.clients[c], 0, 1) && Unusable(s.clients[c].link.inn[0])))
  }

  lemma StepKeepsDoomed(s: System, step: Step, c: nat)
    requires Doomed(s, c) && Enabled(s, step)
    ensures Doomed(Next(s, step), c)
  {
    var s' := Next(s, step);
    if step.ServeNext? {
      assert s'.log[..|s.log|] == s.log;
    }
    HasWrittenStays(s, s', c);
    if step.Deliver? && step.c == c {
      assert s.clients[c].link.inn[1..] == [];
    }
  }

  lemma {:induction false} RunsKeepDoomed(s: System, steps: seq<Step>, t: System, c: nat)
    requires Doomed(s, c) && Runs(s, steps, t)
    ensures Doomed(t, c)
    decreases |steps|
  {
    if steps != [] {
      StepKeepsDoomed(s, steps[0], c);
      RunsKeepDoomed(Next(s, steps[0]), steps[1..], t, c);
    }
  }

  /** A client whose read showed children, or no number, or failed, never writes and is never told
      a sum; once it has handled the answer a caller that did not give up was told a failure. */
  lemma UnusableReadIsFinal(s0: System, steps: seq<Step>, s: System, c: nat, more: seq<Step>, t: System)
    requires Initial(s0) && Runs(s0, steps, s) && c in s.clients
    requires s.clients[c].link.inn != [] && Unusable(s.clients[c].link.inn[0])
    requires Runs(s, more, t)
    ensures c in t.clients && !HasWritten(t, c) && t.clients[c].action.told.None?
    ensures LeftOpen(steps, c) && LeftOpen(more, c) && Stage(t.clients[c], 0, 0) ==> t.clients[c].action.failures == 1
  {
    RunsKeepInv(s0, steps, s);
    assert Local(s, c, s.clients[c]);
    RunsKeepDoomed(s, more, t, c);
    if LeftOpen(steps, c) && LeftOpen(more, c) {
      RunsKeepTold(s0, steps, s, c);
      RunsKeepTold(s, more, t, c);
    }
  }

  // ----- success

  /** The node can be incremented: it is a number without children, or can be created. */
  predicate Incrementable(t: Tree, path: string) {
    if path in t.nodes then IsNumber(t.nodes[path].value) && ChildNames(t, path) == {} else ParentExists(t, path)
  }

  function SumAt(t: Tree, path: string, operand: Value): Value
    requires IsNumber(operand) && (path in t.nodes ==> IsNumber(t.nodes[path].value))
  {
    if path in t.nodes then Add(t.nodes[path].value, operand) else operand
  }

  function VersionAt(t: Tree, path: string): nat {
    if path in t.nodes then t.nodes[path].version + 1 else 0
  }

  /** What the client asks for after it has read the node. */
  function WriteRequest(t: Tree, path: string, operand: Value): Request
    requires IsNumber(operand) && (path in t.nodes ==> IsNumber(t.nodes[path].value))
  {
    if path in t.nodes then Put(path, SumAt(t, path, operand), t.nodes[path].version)
    else Create(path, operand, false, false)
  }

  lemma ReadServed(t: Tree, path: string)
    requires Incrementable(t, path)
    ensures var o := Serve(t, Get(path, false), [], Answered);
      && o.tree == t && o.change.Silent? && o.watch.None?
      && o.reply == if path in t.nodes
                    then GetReply(Ok, t.nodes[path].value, t.nodes[path].version, t.nodes[path].epoch, false)
                    else GetReply(NoNode, Blank, 0, 0, false)
  {
  }

  lemma ReadHandled(t: Tree, path: string, operand: Value, m: Message)
    requires ValidPath(path) && IsNumber(operand) && Incrementable(t, path)
    requires m == Serve(t, Get(path, false), [], Answered).reply
    ensures OnMessage(Increment(path, operand, false, None, 0), m, true)
      == Reaction(Increment(path, SumAt(t, path, operand), false, None, 0), [WriteRequest(t, path, operand)])
  {
    ReadServed(t, path);
  }

  lemma WriteServed(t: Tree, path: string, operand: Value)
    requires IsNumber(operand) && Incrementable(t, path)
    ensures var o := Serve(t, WriteRequest(t, path, operand), [], Answered);
      && o.change.Fired? && o.watch.None? && path in o.tree.nodes
      && o.tree.nodes[path].value == SumAt(t, path, operand) && o.tree.nodes[path].version == VersionAt(t, path)
      && o.reply == if path in t.nodes then PutReply(Ok, VersionAt(t, path)) else CreateReply(Ok, path)
  {
  }

  /** Client `c` among the others. */
  function With(s: System, c: nat, value: Value, told: Option<(Value, nat)>, link: Link, operand: Value): System {
    s.(clients := s.clients[c := Client(Increment(s.path, value, false, told, 0), link, operand)])
  }

  lemma {:induction false} OneMore(s: System, steps: seq<Step>, t: System, step: Step)
    requires Runs(s, steps, t) && Enabled(t, step)
    ensures Runs(s, steps + [step], Next(t, step))
    decreases |steps|
  {
    var more := steps + [step];
    if steps == [] {
      assert more[0] == step && more[1..] == [];
      assert Runs(Next(t, step), [], Next(t, step));
    } else {
      assert more[0] == steps[0] && more[1..] == steps[1..] + [step];
      OneMore(Next(s, steps[0]), steps[1..], t, step);
    }
  }

  /** Serving and delivering the only message of a client. */
  lemma OneTurn(s: System, steps: seq<Step>, a: System, c: nat, value: Value, r: Request, operand: Value, o: Outcome,
                b: System)
    requires a == With(b, c, value, None, Link([r], [], []), operand) && Runs(s, steps, a)
    requires o == Serve(a.tree, r, [], Answered) && o.watch.None?
    ensures var log := if o.change.Fired? then b.log + [Write(c, operand)] else b.log;
      var served := System(b.path, b.start, o.tree, log,
                           With(b, c, value, None, Link([], [o.reply], []), operand).clients);
      Runs(s, steps + [ServeNext(c, Answered)], served)
  {
    OneMore(s, steps, a, ServeNext(c, Answered));
    AnswerAlone(a.clients[c].link, o);
    var cl := a.clients[c].(link := Link([], [o.reply], []));
    assert a.clients[c := cl] == b.clients[c := cl];
  }

  lemma Reads(s: System, c: nat, operand: Value) returns (steps: seq<Step>)
    requires c !in s.clients && ValidPath(s.path) && IsNumber(operand) && Incrementable(s.tree, s.path)
    ensures var reply := Serve(s.tree, Get(s.path, false), [], Answered).reply;
      Runs(s, steps, With(s, c, operand, None, Link([], [reply], []), operand))
  {
    var asked := With(s, c, operand, None, Link([Get(s.path, false)], [], []), operand);
    assert Runs(s, [], s);
    OneMore(s, [], s, Begin(c, operand, true));
    assert Next(s, Begin(c, operand, true)) == asked;
    ReadServed(s.tree, s.path);
    OneTurn(s, [] + [Begin(c, operand, true)], asked, c, operand, Get(s.path, false), operand,
            Serve(s.tree, Get(s.path, false), [], Answered), s);
    steps := [] + [Begin(c, operand, true)] + [ServeNext(c, Answered)];
  }

  lemma Writes(s: System, c: nat, operand: Value) returns (steps: seq<Step>)
    requires c !in s.clients && ValidPath(s.path) && IsNumber(operand) && Incrementable(s.tree, s.path)
    ensures Runs(s, steps, With(s, c, SumAt(s.tree, s.path, operand), None,
                                Link([WriteRequest(s.tree, s.path, operand)], [], []), operand))
  {
    steps := Reads(s, c, operand);
    var reply := Serve(s.tree, Get(s.path, false), [], Answered).reply;
    var a := With(s, c, operand, None, Link([], [reply], []), operand);
    var r := WriteRequest(s.tree, s.path, operand);
    var b := With(s, c, SumAt(s.tree, s.path, operand), None, Link([r], [], []), operand);
    OneMore(s, steps, a, Deliver(c, true));
    ReadHandled(s.tree, s.path, operand, reply);
    assert Handled(a.clients[c], true) == b.clients[c];
    assert a.clients[c := b.clients[c]] == b.clients;
    steps := steps + [Deliver(c, true)];
  }

  /** An increment nobody interferes with succeeds, in any state of the system: of an absent node
      that can be created or of a number without children. Its caller is told the sum and the
      version, which the node then has. */
  lemma UndisturbedSucceeds(s: System, c: nat, operand: Value) returns (steps: seq<Step>, t: System)
    requires c !in s.clients && ValidPath(s.path) && IsNumber(operand) && Incrementable(s.tree, s.path)
    ensures Runs(s, steps, t) && c in t.clients && t.clients[c].action.failures == 0 && !t.clients[c].action.closed
    ensures t.clients[c].action.told == Some((SumAt(s.tree, s.path, operand), VersionAt(s.tree, s.path)))
    ensures s.path in t.tree.nodes && t.log == s.log + [Write(c, operand)]
    ensures t.tree.nodes[s.path].value == SumAt(s.tree, s.path, operand)
    ensures t.tree.nodes[s.path].version == VersionAt(s.tree, s.path)
  {
    steps := Writes(s, c, operand);
    var sum, r := SumAt(s.tree, s.path, operand), WriteRequest(s.tree, s.path, operand);
    var o := Serve(s.tree, r, [], Answered);
    WriteServed(s.tree, s.path, operand);
    OneTurn(s, steps, With(s, c, sum, None, Link([r], [], []), operand), c, sum, r, operand, o, s);
    steps := steps + [ServeNext(c, Answered)];
    var served := System(s.path, s.start, o.tree, s.log + [Write(c, operand)],
                         With(s, c, sum, None, Link([], [o.reply], []), operand).clients);
    OneMore(s, steps, served, Deliver(c, true));
    steps := steps + [Deliver(c, true)];
    t := Next(served, Deliver(c, true));
  }
}
