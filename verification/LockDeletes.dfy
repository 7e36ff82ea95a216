/** How often a lock client asks for the deletion of its node. */
module LockDeletes {
  import opened Paths
  import opened Server
  import opened LockRecipe
  import opened LockSystem
  import opened LockTheorems

  function Deletes(rs: seq<Request>): nat {
    if rs == [] then 0 else (if rs[0].Delete? then 1 else 0) + Deletes(rs[1..])
  }

  lemma DeletesOne(r: Request)
    ensures Deletes([r]) == if r.Delete? then 1 else 0
  {
    assert [r][1..] == [];
  }

  lemma DeletesTwo(r: Request, q: Request)
    ensures Deletes([r] + [q]) == (if r.Delete? then 1 else 0) + if q.Delete? then 1 else 0
  {
    DeletesOne(q);
    assert ([r] + [q])[1..] == [q];
  }

  /** How many deletions a client may still ask for: one while its scope refers to it, and one if a
      node is created for it only after it was closed. */
  function Spare(l: Lock): nat {
    (if l.held then 1 else 0) + if l.created == "" then 1 else 0
  }

  predicate Spends(l: Lock, r: Reaction) {
    Deletes(r.sent) + Spare(r.lock) <= Spare(l)
  }

  lemma AbortSpends(l: Lock, net: Net)
    ensures Spends(l, Abort(l, net))
  {
    DeletesOne(Delete(l.created, -1));
  }

  lemma SubmitSpends(l: Lock, r: Request, up: bool, net: Net)
    requires !r.Delete?
    ensures Spends(l, Submit(l, r, up, net))
  {
    AbortSpends(l, net);
    DeletesOne(r);
  }

  lemma AncestorSpends(l: Lock, net: Net)
    ensures Spends(l, CreateAncestor(l, net))
  {
    AbortSpends(l, net);
    var p := PathParent(LockPath(l.folder), l.depth);
    if p.Some? {
      SubmitSpends(l, Create(p.value, Blank, false, false), net.first, net);
    }
  }

  lemma EnteredSpends(l: Lock, created: string, net: Net)
    requires l.created == ""
    ensures Spends(l, Entered(l, created, net))
  {
    var l1 := l.(created := created);
    AbortSpends(l1, net);
    DeletesOne(Delete(created, -1));
    DeletesOne(Children(l.folder));
  }

  lemma CreateSpends(l: Lock, rc: Code, created: string, net: Net)
    requires l.created == ""
    ensures Spends(l, OnCreate(l, rc, created, net))
  {
    AbortSpends(l, net);
    AncestorSpends(l.(depth := l.depth + 1), net);
    if l.depth == 0 {
      EnteredSpends(l, created, net);
    } else {
      SubmitSpends(l.(depth := 0), Create(LockPath(l.folder), l.value, true, true), net.first, net);
      AncestorSpends(l.(depth := l.depth - 1), net);
    }
  }

  lemma WatchSpends(l: Lock, net: Net)
    ensures Spends(l, WatchPrevious(l, net))
  {
    SubmitSpends(l, Exists(l.prev, true), net.first, net);
    if net.first && ValidPath(l.prev) {
      if net.second && ValidPath(l.created) {
        DeletesTwo(Exists(l.prev, true), Get(l.created, true));
      } else {
        AbortSpends(l, net);
        DeletesTwo(Exists(l.prev, true), Delete(l.created, -1));
        DeletesOne(Delete(l.created, -1));
        DeletesOne(Exists(l.prev, true));
        assert [Exists(l.prev, true)] + [] == [Exists(l.prev, true)];
      }
    }
  }

  lemma PlaceSpends(l: Lock, place: Place, net: Net)
    ensures Spends(l, OnPlace(l, place, net))
  {
    AbortSpends(l, net);
    match place
    case Missing =>
    case First => SubmitSpends(Satisfy(l), Get(l.created, true), net.first, net);
    case After(p) => WatchSpends(l.(prev := Join(l.folder, p)), net);
  }

  lemma MessageSpends(l: Lock, m: Message, net: Net)
    requires m.CreateReply? ==> l.created == ""
    ensures Spends(l, OnMessage(l, m, net))
  {
    AbortSpends(l, net);
    match m
    case CreateReply(rc, created) => CreateSpends(l, rc, created, net);
    case ChildrenReply(rc, children) =>
      if NodeName(l.created).Some? {
        PlaceSpends(l, PlaceOf(children, NodeName(l.created).value), net);
      }
    case ExistsReply(_) => SubmitSpends(l, Children(l.folder), net.first, net);
    case Event(_, _) => SubmitSpends(l, Children(l.folder), net.first, net);
    case _ =>
  }

  lemma CloseSpends(l: Lock, up: bool)
    ensures Spends(l, Close(l, up))
  {
    DeletesOne(Delete(l.created, -1));
  }

  /** What a client asks for in one step. */
  ghost function AskedBy(s: System, step: Step, c: nat): seq<Request>
    requires Enabled(s, step)
  {
    var t := Next(s, step);
    if c !in t.clients then []
    else if c !in s.clients then t.clients[c].link.out
    else
      var before, after := s.clients[c].link.out, t.clients[c].link.out;
      if |before| <= |after| then after[|before|..] else []
  }

  /** How many deletions a client asks for in a run. */
  ghost function DeletesBy(s: System, steps: seq<Step>, t: System, c: nat): nat
    requires Runs(s, steps, t)
    decreases |steps|
  {
    if steps == [] then 0 else Deletes(AskedBy(s, steps[0], c)) + DeletesBy(Next(s, steps[0]), steps[1..], t, c)
  }

  /** What a client that is yet to come may ask for. */
  ghost function SpareOf(s: System, c: nat): nat {
    if c in s.clients then Spare(s.clients[c].lock) else 2
  }

  lemma ReactionAsks(cl: Client, r: Reaction)
    ensures React(cl, r).link.out[|cl.link.out|..] == r.sent
  {
  }

  lemma HandledSpends(s: System, c: nat, net: Net)
    requires Inv(s) && c in s.clients && s.clients[c].link.inn != []
    ensures Spends(s.clients[c].lock, OnMessage(s.clients[c].lock, s.clients[c].link.inn[0], net))
  {
    var cl := s.clients[c];
    assert Good(s.folder, s.tree, s.issued, cl);
    assert cl.link.inn[0] in cl.link.inn;
    MessageSpends(cl.lock, cl.link.inn[0], net);
  }

  /** The step makes client `c` itself react. */
  predicate Moves(step: Step, c: nat) {
    (step.Start? || step.Deliver? || step.CloseLock? || step.SessionEvent?) && step.c == c
  }

  lemma OthersAskNothing(s: System, step: Step, c: nat)
    requires Enabled(s, step) && !Moves(step, c)
    ensures AskedBy(s, step, c) == [] && SpareOf(Next(s, step), c) == SpareOf(s, c)
  {
  }

  lemma ReactionSpends(s: System, step: Step, c: nat, cl: Client, r: Reaction)
    requires Enabled(s, step) && c in s.clients && cl.link.out == s.clients[c].link.out
    requires Next(s, step) == s.(clients := s.clients[c := React(cl, r)]) && Spends(s.clients[c].lock, r)
    ensures Deletes(AskedBy(s, step, c)) + SpareOf(Next(s, step), c) <= SpareOf(s, c)
  {
    ReactionAsks(cl, r);
  }

  lemma StepSpends(s: System, step: Step, c: nat)
    requires Inv(s) && Enabled(s, step)
    ensures Deletes(AskedBy(s, step, c)) + SpareOf(Next(s, step), c) <= SpareOf(s, c)
  {
    if !Moves(step, c) {
      OthersAskNothing(s, step, c);
      return;
    }
    match step
    case Start(_, value, net) =>
      SubmitSpends(NewLock(s.folder, value), Create(LockPath(s.folder), value, true, true), net.first, net);
    case Deliver(_, net) =>
      HandledSpends(s, c, net);
      ReactionSpends(s, step, c, Popped(s.clients[c]),
                     OnMessage(s.clients[c].lock, s.clients[c].link.inn[0], net));
    case CloseLock(_, up) =>
      CloseSpends(s.clients[c].lock, up);
      ReactionSpends(s, step, c, s.clients[c], Close(s.clients[c].lock, up));
    case SessionEvent(_, connected, net) =>
      AbortSpends(s.clients[c].lock, net);
      ReactionSpends(s, step, c, s.clients[c], OnEvent(s.clients[c].lock, Session(connected), net));
  }

  lemma {:induction false} RunSpends(s: System, steps: seq<Step>, t: System, c: nat)
    requires Inv(s) && Runs(s, steps, t)
    ensures DeletesBy(s, steps, t, c) + SpareOf(t, c) <= SpareOf(s, c)
    decreases |steps|
  {
    if steps != [] {
      StepSpends(s, steps[0], c);
      StepKeepsInv(s, steps[0]);
      RunSpends(Next(s, steps[0]), steps[1..], t, c);
    }
  }

  /** Whatever happens, a client asks for the deletion of its node at most twice in its life, and
      once it has let go of a node it knows it never asks again. */
  lemma {:induction false} DeletesAtMostTwice(s0: System, steps: seq<Step>, s: System, more: seq<Step>, t: System,
                                              c: nat)
    requires Initial(s0) && Runs(s0, steps, s) && Runs(s, more, t)
    ensures DeletesBy(s0, steps, s, c) <= 2
    ensures c in s.clients && !s.clients[c].lock.held && s.clients[c].lock.created != "" ==>
      DeletesBy(s, more, t, c) == 0
  {
    RunsKeepInv(s0, steps, s);
    RunSpends(s0, steps, s, c);
    RunSpends(s, more, t, c);
  }
}
