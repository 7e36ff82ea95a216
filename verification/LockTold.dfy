/** What a lock client tells its caller: it never gives up, or loses its node, silently. */
module LockTold {
  import opened Paths
  import opened Server
  import opened LockRecipe
  import opened LockSystem
  import opened LockTheorems

  /** From `l` to `m` the caller was told a failure exactly if the scope was closed. */
  predicate Says(l: Lock, m: Lock) {
    if l.closed then m.closed && m.failures == l.failures
    else m.failures == if m.closed then l.failures + 1 else l.failures
  }

  lemma AncestorSays(l: Lock, net: Net)
    ensures Says(l, CreateAncestor(l, net).lock)
  {
  }

  lemma CreateSays(l: Lock, rc: Code, created: string, net: Net)
    ensures Says(l, OnCreate(l, rc, created, net).lock)
  {
    AncestorSays(l.(depth := l.depth + 1), net);
    if l.depth > 0 {
      AncestorSays(l.(depth := l.depth - 1), net);
    }
  }

  lemma PlaceSays(l: Lock, place: Place, net: Net)
    ensures Says(l, OnPlace(l, place, net).lock)
  {
  }

  lemma MessageSays(l: Lock, m: Message, net: Net)
    ensures Says(l, OnMessage(l, m, net).lock)
  {
    match m
    case CreateReply(rc, created) => CreateSays(l, rc, created, net);
    case ChildrenReply(rc, children) =>
      if NodeName(l.created).Some? {
        PlaceSays(l, PlaceOf(children, NodeName(l.created).value), net);
      }
    case _ =>
  }

  predicate Closes(step: Step, c: nat) {
    step.CloseLock? && step.c == c
  }

  /** The caller of `c` never closes the scope. */
  predicate LeftOpen(steps: seq<Step>, c: nat) {
    forall i :: 0 <= i < |steps| ==> !Closes(steps[i], c)
  }

  predicate Informed(s: System, c: nat) {
    c in s.clients ==> s.clients[c].lock.failures == if s.clients[c].lock.closed then 1 else 0
  }

  lemma StepInforms(s: System, step: Step, c: nat)
    requires Enabled(s, step) && Informed(s, c) && !Closes(step, c)
    ensures Informed(Next(s, step), c)
  {
    match step {
      case Deliver(d, net) => MessageSays(s.clients[d].lock, s.clients[d].link.inn[0], net);
      case _ =>
    }
  }

  lemma {:induction false} RunInforms(s: System, steps: seq<Step>, t: System, c: nat)
    requires Informed(s, c) && Runs(s, steps, t) && LeftOpen(steps, c)
    ensures Informed(t, c)
    decreases |steps|
  {
    if steps != [] {
      assert !Closes(steps[0], c);
      StepInforms(s, steps[0], c);
      RunInforms(Next(s, steps[0]), steps[1..], t, c);
    }
  }

  /** In every run in which its caller leaves the scope open, a client is closed if and only if it
      has told its caller a failure, and it has told exactly one. */
  lemma {:induction false} ClosedMeansTold(s0: System, steps: seq<Step>, s: System, c: nat)
    requires Initial(s0) && Runs(s0, steps, s) && LeftOpen(steps, c) && c in s.clients
    ensures s.clients[c].lock.closed <==> s.clients[c].lock.failures == 1
    ensures !s.clients[c].lock.closed <==> s.clients[c].lock.failures == 0
  {
    RunInforms(s0, steps, s, c);
  }

  /** A holder learns of its loss: once nothing is in flight for it, a client whose node is gone
      has told its caller a failure, granted or not. */
  lemma {:induction false} LossIsTold(s0: System, steps: seq<Step>, s: System, c: nat)
    requires Initial(s0) && Runs(s0, steps, s) && LeftOpen(steps, c)
    requires c in s.clients && Idle(s.clients[c]) && s.clients[c].lock.created !in s.tree.nodes
    ensures s.clients[c].lock.failures == 1
  {
    ClosedMeansTold(s0, steps, s, c);
    if !s.clients[c].lock.closed {
      NoLostWakeUp(s0, steps, s, c);
    }
  }
}
