/** The create action: when the parent is missing it climbs up the path, creates the highest
    missing ancestor and comes back down. */
module CreateRecipe {
  import opened Paths
  import opened Server

  datatype Creation = Creation(
    path: string, value: Value, ephemeral: bool, sequence: bool,
    depth: nat, closed: bool, successes: nat, failures: nat)

  datatype Reaction = Reaction(action: Creation, sent: seq<Request>)

  function Abort(a: Creation): Reaction {
    Reaction(a.(failures := if a.closed then a.failures else a.failures + 1, closed := true), [])
  }

  function Submit(a: Creation, r: Request, up: bool): Reaction {
    if up && ValidPath(r.path) then Reaction(a, [r]) else Abort(a)
  }

  function Target(a: Creation): Request {
    Create(a.path, a.value, a.ephemeral, a.sequence)
  }

  function SubmitAncestor(a: Creation, up: bool): Reaction {
    match PathParent(a.path, a.depth)
    case None => Abort(a)
    case Some(p) => Submit(a, Create(p, Blank, false, false), up)
  }

  function OnCreate(a: Creation, rc: Code, up: bool): Reaction {
    match rc
    case Ok =>
      if a.depth == 0 then Reaction(if a.closed then a else a.(successes := a.successes + 1), [])
      else if a.depth == 1 then Submit(a.(depth := 0), Target(a), up)
      else SubmitAncestor(a.(depth := a.depth - 1), up)
    case NoNode => SubmitAncestor(a.(depth := a.depth + 1), up)
    case _ => Abort(a)
  }

  function NewCreation(path: string, value: Value, ephemeral: bool, sequence: bool): Creation {
    Creation(path, value, ephemeral, sequence, 0, false, 0, 0)
  }

  class CreateAction {
    const path: string
    const value: Value
    const ephemeral: bool
    const sequence: bool
    var depth: nat
    var closed: bool
    var successes: nat
    var failures: nat
    var sent: seq<Request>

    function View(): Creation
      reads this
    {
      Creation(path, value, ephemeral, sequence, depth, closed, successes, failures)
    }

    twostate predicate Reacted(r: Reaction)
      reads this
    {
      View() == r.action && sent == old(sent) + r.sent
    }

    constructor (path: string, value: Value, ephemeral: bool, sequence: bool)
      ensures View() == NewCreation(path, value, ephemeral, sequence) && sent == []
    {
      this.path, this.value, this.ephemeral, this.sequence := path, value, ephemeral, sequence;
      depth, closed, successes, failures, sent := 0, false, 0, 0, [];
    }

    method AbortWithCurrentException()
      modifies this
      ensures Reacted(Abort(old(View())))
    {
      if !closed {
        failures := failures + 1;
      }
      closed := true;
    }

    method SubmitRequest(r: Request, up: bool)
      modifies this
      ensures Reacted(Submit(old(View()), r, up))
    {
      if up && ValidPath(r.path) {
        sent := sent + [r];
      } else {
        AbortWithCurrentException();
      }
    }

    method SubmitParent(up: bool)
      modifies this
      ensures Reacted(SubmitAncestor(old(View()), up))
    {
      var p := PathParent(path, depth);
      if p.None? {
        AbortWithCurrentException();
      } else {
        SubmitRequest(Create(p.value, Blank, false, false), up);
      }
    }

    method OnCreateReply(rc: Code, up: bool)
      modifies this
      ensures Reacted(OnCreate(old(View()), rc, up))
    {
      if rc.Ok? {
        if depth == 0 {
          if !closed {
            successes := successes + 1;
          }
        } else if depth == 1 {
          depth := depth - 1;
          SubmitRequest(Create(path, value, ephemeral, sequence), up);
        } else {
          depth := depth - 1;
          SubmitParent(up);
        }
      } else if rc.NoNode? {
        depth := depth + 1;
        SubmitParent(up);
      } else {
        AbortWithCurrentException();
      }
    }
  }
}

module CreateTheorems {
  import opened Wrappers
  import opened Paths
  import opened Server
  import opened CreateRecipe

  // ----- among other clients

  /** `done` remembers that the server carried out the create of the full path. */
  datatype System = System(tree: Tree, action: Creation, link: Link, done: bool)

  datatype Step =
    | ServeNext(fate: Fate)
    | Deliver(up: bool)
    | CloseScope
    | Elsewhere(tree: Tree)

  ghost predicate Enabled(s: System, step: Step) {
    match step
    case ServeNext(_) => s.link.out != []
    case Deliver(_) => s.link.inn != [] && s.link.inn[0].CreateReply?
    case _ => true
  }

  ghost function Next(s: System, step: Step): System
    requires Enabled(s, step)
  {
    match step
    case ServeNext(fate) =>
      var o := Serve(s.tree, s.link.out[0], [], fate);
      s.(tree := o.tree, link := Answer(s.link, o),
         done := s.done || (s.link.out[0] == Target(s.action) && o.change.Fired?))
    case Deliver(up) =>
      var r := OnCreate(s.action, s.link.inn[0].rc, up);
      s.(action := r.action, link := s.link.(inn := s.link.inn[1..], out := s.link.out + r.sent))
    case CloseScope => s.(action := s.action.(closed := true))
    case Elsewhere(tree) => s.(tree := tree)
  }

  ghost predicate Runs(s0: System, steps: seq<Step>, s: System)
    decreases |steps|
  {
    if steps == [] then s == s0
    else Enabled(s0, steps[0]) && Runs(Next(s0, steps[0]), steps[1..], s)
  }

  ghost predicate Initial(s: System) {
    && !s.done && s.link == Link([Target(s.action)], [], [])
    && s.action == NewCreation(s.action.path, s.action.value, s.action.ephemeral, s.action.sequence)
  }

  /** The outstanding request asks for the parent at the current depth; only the full path
      carries the value and the flags. */
  predicate Aims(a: Creation, r: Request) {
    if a.depth == 0 then r == Target(a)
    else
      var p := PathParent(a.path, a.depth);
      p.Some? && r == Create(p.value, Blank, false, false)
  }

  ghost predicate Inv(s: System) {
    var a, k := s.action, s.link;
    && k.watches == []
    && (a.successes > 0 ==> s.done && a.successes == 1 && k.out == [] && k.inn == [])
    && (|| (k.out == [] && k.inn == [])
        || (|k.out| == 1 && k.inn == [] && Aims(a, k.out[0]))
        || (k.out == [] && |k.inn| == 1 && k.inn[0].CreateReply?
            && (k.inn[0].rc.Ok? && a.depth == 0 ==> s.done)))
  }

  lemma StepKeepsInv(s: System, step: Step)
    requires Inv(s) && Enabled(s, step)
    ensures Inv(Next(s, step))
  {
    if step.ServeNext? {
      var o := Serve(s.tree, s.link.out[0], [], step.fate);
      assert Answer(s.link, o) == Link([], [o.reply], []);
    }
  }

  lemma {:induction false} RunsKeepInv(s0: System, steps: seq<Step>, s: System)
    requires Inv(s0) && Runs(s0, steps, s)
    ensures Inv(s)
    decreases |steps|
  {
    if steps != [] {
      StepKeepsInv(s0, steps[0]);
      RunsKeepInv(Next(s0, steps[0]), steps[1..], s);
    }
  }

  /** Whatever others do: at most one request is under way and it aims at the parent of the
      current depth; success is reported once at most, and only after the full path itself
      was created. */
  lemma SuccessMeansCreated(s0: System, steps: seq<Step>, s: System)
    requires Initial(s0) && Runs(s0, steps, s)
    ensures |s.link.out| <= 1 && forall r :: r in s.link.out ==> Aims(s.action, r)
    ensures s.action.successes <= 1 && (s.action.successes == 1 ==> s.done)
  {
    RunsKeepInv(s0, steps, s);
  }

  ghost predicate LeftOpen(steps: seq<Step>) {
    CloseScope !in steps
  }

  predicate Idle(s: System) {
    s.link.out == [] && s.link.inn == []
  }

  /** The caller has been told exactly one thing if nothing is under way, and nothing otherwise. */
  predicate Told(s: System) {
    && s.action.successes + s.action.failures == (if Idle(s) then 1 else 0)
    && (s.action.closed <==> s.action.failures == 1)
  }

  /** An answer leads to one more request or to one thing told. */
  lemma HandlingTells(a: Creation, rc: Code, up: bool)
    requires a.successes == a.failures == 0 && !a.closed
    ensures var r := OnCreate(a, rc, up);
      && r.action.successes + r.action.failures == (if r.sent == [] then 1 else 0)
      && (r.action.closed <==> r.action.failures == 1)
  {
  }

  lemma StepKeepsTold(s: System, step: Step)
    requires Inv(s) && Told(s) && Enabled(s, step) && !step.CloseScope?
    ensures Told(Next(s, step))
  {
    match step
    case ServeNext(fate) =>
      var o := Serve(s.tree, s.link.out[0], [], fate);
      assert Answer(s.link, o) == Link([], [o.reply], []);
    case Deliver(up) =>
      HandlingTells(s.action, s.link.inn[0].rc, up);
      assert s.link.inn[1..] == [];
    case Elsewhere(_) =>
  }

  lemma {:induction false} RunsKeepTold(s0: System, steps: seq<Step>, s: System)
    requires Inv(s0) && Told(s0) && Runs(s0, steps, s) && LeftOpen(steps)
    ensures Told(s)
    decreases |steps|
  {
    if steps != [] {
      StepKeepsInv(s0, steps[0]);
      StepKeepsTold(s0, steps[0]);
      RunsKeepTold(Next(s0, steps[0]), steps[1..], s);
    }
  }

  /** Whatever others do and whatever is lost: a create whose scope is left open tells its caller
      exactly one thing, success or failure, the moment nothing is under way any more. */
  lemma ToldOnce(s0: System, steps: seq<Step>, s: System)
    requires Initial(s0) && Runs(s0, steps, s) && LeftOpen(steps)
    ensures s.action.successes + s.action.failures == if Idle(s) then 1 else 0
  {
    RunsKeepTold(s0, steps, s);
  }

  /** A request follows an answer only if the connection takes it and its path is valid. */
  lemma AskedOnlyIfPossible(s0: System, steps: seq<Step>, s: System, up: bool)
    requires Initial(s0) && Runs(s0, steps, s) && Enabled(s, Deliver(up))
    ensures forall r :: r in Next(s, Deliver(up)).link.out ==> up && ValidPath(r.path)
  {
    RunsKeepInv(s0, steps, s);
  }

  /** The server refused the request, for another reason than a missing parent. */
  predicate Refusal(m: Message) {
    m.CreateReply? && !m.rc.Ok? && !m.rc.NoNode?
  }

  predicate Doomed(s: System) {
    s.action.successes == 0 && s.link.out == [] && (s.link.inn == [] || (|s.link.inn| == 1 && Refusal(s.link.inn[0])))
  }

  lemma {:induction false} RunsKeepDoomed(s: System, steps: seq<Step>, t: System)
    requires Doomed(s) && Runs(s, steps, t)
    ensures Doomed(t)
    decreases |steps|
  {
    if steps != [] {
      RunsKeepDoomed(Next(s, steps[0]), steps[1..], t);
    }
  }

  /** An answer that refuses a request, be it only that somebody else created an ancestor in the
      meantime, is the end: nothing more is asked for, success is never reported, and once the
      answer is handled an open scope has been told a failure. */
  lemma RefusalIsFinal(s0: System, steps: seq<Step>, s: System, more: seq<Step>, t: System)
    requires Initial(s0) && Runs(s0, steps, s) && s.link.inn != [] && Refusal(s.link.inn[0])
    requires Runs(s, more, t)
    ensures t.link.out == [] && t.action.successes == 0
    ensures LeftOpen(steps) && LeftOpen(more) && t.link.inn == [] ==> t.action.failures == 1
  {
    RunsKeepInv(s0, steps, s);
    RunsKeepDoomed(s, more, t);
    if LeftOpen(steps) && LeftOpen(more) {
      RunsKeepTold(s0, steps, s);
      RunsKeepTold(s, more, t);
    }
  }

  // ----- alone

  /** A conversation without anybody else: `count` requests so far. */
  datatype Talk = Talk(tree: Tree, action: Creation, out: seq<Request>, count: nat)

  /** One request is served and its reply handled. */
  function Turn(x: Talk): Talk {
    if x.out == [] then x
    else
      var o := Perform(x.tree, x.out[0], []);
      var r := OnCreate(x.action, if o.reply.CreateReply? then o.reply.rc else Failed, true);
      Talk(o.tree, r.action, x.out[1..] + r.sent, x.count + 1)
  }

  /** `y` is what one turn makes of `x`, which still had a request to be served. */
  predicate Follows(x: Talk, y: Talk) {
    x.out != [] && y == Turn(x)
  }

  /** The whole conversation from `x` to `y`, turn by turn. */
  ghost predicate Conversation(xs: seq<Talk>, x: Talk, y: Talk) {
    && |xs| > 0 && xs[0] == x && xs[|xs| - 1] == y
    && forall i :: 0 < i < |xs| ==> Follows(xs[i - 1], xs[i])
  }

  /** Exactly the first `m` parents are missing. */
  ghost predicate MissingParents(t: Tree, path: string, m: nat) {
    && Cut(path, m + 1).Some?
    && (forall d :: 1 <= d <= m ==> Cut(path, d).Some? && Anc(path, d) !in t.nodes && ValidPath(Anc(path, d)))
    && (Anc(path, m + 1) == "" || Anc(path, m + 1) in t.nodes)
  }

  /** The tree with the parents `d..m` added, none of them with a value. */
  function Built(t: Tree, path: string, d: nat, m: nat): Tree
    requires d <= m + 1 && Cut(path, m).Some?
    requires forall i :: d <= i <= m ==> Cut(path, i).Some?
    decreases m + 1 - d
  {
    if d == m + 1 then t else WithNode(Built(t, path, d + 1, m), Anc(path, d), Blank)
  }

  /** Which nodes the finished parents are, and that nothing else changed. */
  lemma {:induction false} BuiltSpec(t: Tree, path: string, d: nat, m: nat, p: string)
    requires 1 <= d <= m + 1 && MissingParents(t, path, m)
    requires Cut(path, m).Some?
    ensures p in Built(t, path, d, m).nodes <==> p in t.nodes || exists i :: d <= i <= m && p == Anc(path, i)
    ensures p in t.nodes ==> Built(t, path, d, m).nodes[p] == t.nodes[p]
    ensures p !in t.nodes && p in Built(t, path, d, m).nodes ==>
              Built(t, path, d, m).nodes[p].value == Blank && Built(t, path, d, m).nodes[p].version == 0
    ensures Built(t, path, d, m).counter == t.counter
    decreases m + 1 - d
  {
    if d <= m {
      BuiltSpec(t, path, d + 1, m, p);
    }
  }

  lemma AncestorRequest(a: Creation, d: nat)
    requires d > 0 && Cut(a.path, d).Some? && a.path != "" && ValidPath(Anc(a.path, d))
    ensures SubmitAncestor(a.(depth := d), true) ==
            Reaction(a.(depth := d), [Create(Anc(a.path, d), Blank, false, false)])
  {
  }

  function RequestAt(a: Creation, d: nat): Request
    requires Cut(a.path, d).Some?
  {
    if d == 0 then Target(a) else Create(Anc(a.path, d), Blank, false, false)
  }

  /** The talk while depth `d` is being asked for. */
  function At(t: Tree, a: Creation, d: nat, count: nat): Talk
    requires Cut(a.path, d).Some?
  {
    Talk(t, a.(depth := d), [RequestAt(a, d)], count)
  }

  lemma LastSlashOfSequence(path: string, digits: string)
    requires NoSlash(digits) && LastSlash(path) >= 0
    ensures LastSlash(path + digits) == LastSlash(path)
    ensures PathParent(path + digits, 1) == PathParent(path, 1)
  {
    var full, i := path + digits, LastSlash(path);
    assert full[i] == '/';
    assert forall j :: i < j < |full| ==> full[j] != '/' by {
      assert forall j :: |path| <= j < |full| ==> full[j] in digits;
    }
    assert full[..i] == path[..i];
  }

  lemma ParentAsked(t: Tree, a: Creation, d: nat)
    requires a.path != "" && Cut(a.path, d + 1).Some?
    ensures Cut(a.path, d).Some?
    ensures var r := RequestAt(a, d);
            PathParent(CreatedPath(t, r.path, r.sequence), 1) == Some(Anc(a.path, d + 1))
  {
    CutBelow(a.path, d, d + 1);
    ParentOfParent(a.path, d);
    assert LastSlash(Anc(a.path, d)) >= 0;
    if d == 0 && a.sequence {
      LastSlashOfSequence(a.path, Pad(t.counter, SEQUENCE_DIGITS));
    }
  }

  /** The parent above is missing: climb one level. */
  lemma ClimbTurn(t: Tree, a: Creation, d: nat, m: nat, count: nat)
    requires a.path != "" && MissingParents(t, a.path, m) && d < m && Cut(a.path, d).Some?
    requires CreatedPath(t, RequestAt(a, d).path, RequestAt(a, d).sequence) !in t.nodes
    ensures Follows(At(t, a, d, count), At(t, a, d + 1, count + 1))
  {
    ParentAsked(t, a, d);
    AncestorRequest(a.(depth := d), d + 1);
  }

  lemma AncestorServed(t: Tree, a: Creation, d: nat)
    requires a.path != "" && d > 0 && Cut(a.path, d + 1).Some? && Cut(a.path, d).Some?
    requires Anc(a.path, d) !in t.nodes && (Anc(a.path, d + 1) == "" || Anc(a.path, d + 1) in t.nodes)
    ensures var o := Perform(t, RequestAt(a, d), []);
      o.tree == WithNode(t, Anc(a.path, d), Blank) && o.reply == CreateReply(Ok, Anc(a.path, d))
  {
    ParentAsked(t, a, d);
  }

  lemma GoesDown(a: Creation, d: nat)
    requires a.path != "" && d > 0 && Cut(a.path, d - 1).Some? && ValidPath(Anc(a.path, d - 1))
    ensures OnCreate(a.(depth := d), Ok, true) == Reaction(a.(depth := d - 1), [RequestAt(a, d - 1)])
  {
    if d > 1 {
      AncestorRequest(a.(depth := d), d - 1);
    }
  }

  /** The parent above exists: the missing parent at depth `d` is created. */
  lemma DescendTurn(t: Tree, a: Creation, d: nat, count: nat)
    requires a.path != "" && d > 0 && Cut(a.path, d + 1).Some? && Cut(a.path, d).Some?
    requires Anc(a.path, d) !in t.nodes && (Anc(a.path, d + 1) == "" || Anc(a.path, d + 1) in t.nodes)
    requires Cut(a.path, d - 1).Some? && ValidPath(Anc(a.path, d - 1))
    ensures Follows(At(t, a, d, count), At(WithNode(t, Anc(a.path, d), Blank), a, d - 1, count + 1))
  {
    AncestorServed(t, a, d);
    GoesDown(a, d);
  }

  lemma OneMoreTurn(xs: seq<Talk>, x: Talk, y: Talk, z: Talk)
    requires Conversation(xs, x, y) && Follows(y, z)
    ensures Conversation(xs + [z], x, z)
  {
  }

  lemma NotThere(t: Tree, a: Creation, m: nat, d: nat)
    requires MissingParents(t, a.path, m) && d <= m && Cut(a.path, d).Some?
    requires CreatedPath(t, a.path, a.sequence) !in t.nodes
    ensures CreatedPath(t, RequestAt(a, d).path, RequestAt(a, d).sequence) !in t.nodes
  {
  }

  lemma {:induction false} Up(t: Tree, a: Creation, m: nat, k: nat) returns (xs: seq<Talk>)
    requires a.path != "" && MissingParents(t, a.path, m) && k <= m
    requires CreatedPath(t, a.path, a.sequence) !in t.nodes
    ensures |xs| == k + 1 && Cut(a.path, k).Some? && Conversation(xs, At(t, a, 0, 0), At(t, a, k, k))
  {
    CutBelow(a.path, k, m + 1);
    if k == 0 {
      xs := [At(t, a, 0, 0)];
    } else {
      xs := Up(t, a, m, k - 1);
      NotThere(t, a, m, k - 1);
      ClimbTurn(t, a, k - 1, m, k - 1);
      OneMoreTurn(xs, At(t, a, 0, 0), At(t, a, k - 1, k - 1), At(t, a, k, k));
      xs := xs + [At(t, a, k, k)];
    }
  }

  lemma {:induction false} Down(t: Tree, a: Creation, m: nat, j: nat) returns (xs: seq<Talk>)
    requires ValidPath(a.path) && MissingParents(t, a.path, m) && j <= m
    requires CreatedPath(t, a.path, a.sequence) !in t.nodes
    ensures |xs| == m + j + 1 && Cut(a.path, m).Some? && Cut(a.path, m - j).Some?
    ensures Conversation(xs, At(t, a, 0, 0), At(Built(t, a.path, m - j + 1, m), a, m - j, m + j))
  {
    CutBelow(a.path, m, m + 1);
    CutBelow(a.path, m - j, m + 1);
    if j == 0 {
      xs := Up(t, a, m, m);
    } else {
      var d := m - j + 1;
      xs := Down(t, a, m, j - 1);
      ReadyToDescend(t, a, m, d);
      xs := DescendTalk(xs, At(t, a, 0, 0), Built(t, a.path, d + 1, m), a, d, m + j - 1);
    }
  }

  lemma DescendTalk(xs: seq<Talk>, x: Talk, t: Tree, a: Creation, d: nat, count: nat) returns (ys: seq<Talk>)
    requires a.path != "" && d > 0 && Cut(a.path, d + 1).Some? && Cut(a.path, d).Some?
    requires Anc(a.path, d) !in t.nodes && (Anc(a.path, d + 1) == "" || Anc(a.path, d + 1) in t.nodes)
    requires Cut(a.path, d - 1).Some? && ValidPath(Anc(a.path, d - 1))
    requires Conversation(xs, x, At(t, a, d, count))
    ensures |ys| == |xs| + 1 && Conversation(ys, x, At(WithNode(t, Anc(a.path, d), Blank), a, d - 1, count + 1))
  {
    var z := At(WithNode(t, Anc(a.path, d), Blank), a, d - 1, count + 1);
    DescendTurn(t, a, d, count);
    OneMoreTurn(xs, x, At(t, a, d, count), z);
    ys := xs + [z];
  }

  /** With the parents above depth `d` built, the one at `d` is missing and can be created. */
  lemma ReadyToDescend(t: Tree, a: Creation, m: nat, d: nat)
    requires ValidPath(a.path) && MissingParents(t, a.path, m) && 1 <= d <= m && Cut(a.path, m).Some?
    ensures Cut(a.path, d + 1).Some? && Cut(a.path, d - 1).Some? && ValidPath(Anc(a.path, d - 1))
    ensures var above := Built(t, a.path, d + 1, m).nodes;
            Anc(a.path, d) !in above && (Anc(a.path, d + 1) == "" || Anc(a.path, d + 1) in above)
  {
    CutBelow(a.path, d + 1, m + 1);
    CutBelow(a.path, d - 1, m + 1);
    forall i | d < i <= m
      ensures Anc(a.path, i) != Anc(a.path, d)
    {
      CutBelow(a.path, d, i);
    }
    BuiltSpec(t, a.path, d + 1, m, Anc(a.path, d));
    BuiltSpec(t, a.path, d + 1, m, Anc(a.path, d + 1));
  }

  /** Everything that is left behind: the missing parents, without values, and the target. */
  function Finished(t: Tree, a: Creation, m: nat): Tree
    requires Cut(a.path, m).Some? && forall i :: 1 <= i <= m ==> Cut(a.path, i).Some?
  {
    PerformCreate(Built(t, a.path, 1, m), a.path, a.value, a.sequence).tree
  }

  lemma TargetFits(t: Tree, a: Creation, m: nat)
    requires ValidPath(a.path) && MissingParents(t, a.path, m) && Cut(a.path, m).Some?
    requires CreatedPath(t, a.path, a.sequence) !in t.nodes
    ensures CreateCode(Built(t, a.path, 1, m), CreatedPath(t, a.path, a.sequence)).Ok?
    ensures Built(t, a.path, 1, m).counter == t.counter
  {
    var full := CreatedPath(t, a.path, a.sequence);
    BuiltSpec(t, a.path, 1, m, full);
    forall i | 1 <= i <= m
      ensures Anc(a.path, i) != full
    {
      CutBelow(a.path, 0, i);
    }
    CutBelow(a.path, 1, m + 1);
    ParentAsked(t, a, 0);
    BuiltSpec(t, a.path, 1, m, Anc(a.path, 1));
  }

  lemma LastTurn(t: Tree, a: Creation, count: nat)
    requires a == NewCreation(a.path, a.value, a.ephemeral, a.sequence)
    requires CreateCode(t, CreatedPath(t, a.path, a.sequence)).Ok?
    ensures Follows(At(t, a, 0, count),
                    Talk(PerformCreate(t, a.path, a.value, a.sequence).tree, a.(successes := 1), [], count + 1))
  {
    assert [RequestAt(a, 0)][1..] == [];
  }

  /** Without other writers, a create whose first `m` parents are missing needs exactly
      2m + 1 requests, succeeds once, and leaves the missing parents without values and the
      target with its value. */
  lemma AloneTakes2mPlus1(t: Tree, a: Creation, m: nat) returns (xs: seq<Talk>)
    requires ValidPath(a.path) && MissingParents(t, a.path, m)
    requires a == NewCreation(a.path, a.value, a.ephemeral, a.sequence)
    requires CreatedPath(t, a.path, a.sequence) !in t.nodes
    ensures |xs| == 2 * m + 2 && Cut(a.path, m).Some?
    ensures Conversation(xs, Talk(t, a, [Target(a)], 0), Talk(Finished(t, a, m), a.(successes := 1), [], 2 * m + 1))
  {
    xs := Down(t, a, m, m);
    TargetFits(t, a, m);
    var y, z := At(Built(t, a.path, 1, m), a, 0, 2 * m), Talk(Finished(t, a, m), a.(successes := 1), [], 2 * m + 1);
    LastTurn(Built(t, a.path, 1, m), a, 2 * m);
    OneMoreTurn(xs, At(t, a, 0, 0), y, z);
    xs := xs + [z];
  }

  /** What is in the tree afterwards, path by path. */
  lemma AloneLeaves(t: Tree, a: Creation, m: nat, p: string)
    requires ValidPath(a.path) && MissingParents(t, a.path, m) && Cut(a.path, m).Some?
    requires CreatedPath(t, a.path, a.sequence) !in t.nodes
    ensures var after, full := Finished(t, a, m).nodes, CreatedPath(t, a.path, a.sequence);
            && (p in after <==> p in t.nodes || p == full || exists i :: 1 <= i <= m && p == Anc(a.path, i))
            && (p in t.nodes ==> after[p] == t.nodes[p])
            && (p == full ==> after[p].value == a.value)
            && (p in after && p !in t.nodes && p != full ==> after[p].value == Blank)
  {
    BuiltSpec(t, a.path, 1, m, p);
    TargetFits(t, a, m);
  }
}

/** The connection makes sure that its own path prefix exists. */
module ConnectionPrefix {
  import opened Wrappers
  import opened Paths
  import opened Server

  /** What happens to the request for the i-th level, counted from the prefix itself. */
  function FateAt(fates: seq<Fate>, i: nat): Fate {
    if i < |fates| then fates[i] else Answered
  }

  /** What one synchronous create of an empty node leaves behind. */
  function Level(t: Tree, path: string, fate: Fate): Tree {
    Serve(t, Create(path, Blank, false, false), [], fate).tree
  }

  /** Any answer but success and "exists already" forces a reconnect. */
  predicate Reconnects(t: Tree, path: string, fate: Fate) {
    var rc := Serve(t, Create(path, Blank, false, false), [], fate).reply.rc;
    !rc.Ok? && !rc.NodeExists?
  }

  lemma LevelSpec(t: Tree, path: string, fate: Fate)
    ensures !Reconnects(t, path, fate) ==> path in Level(t, path, fate).nodes
    ensures fate.Answered? && ParentExists(t, path) ==> !Reconnects(t, path, fate)
    ensures forall p :: p in t.nodes ==> p in Level(t, path, fate).nodes && Level(t, path, fate).nodes[p] == t.nodes[p]
    ensures forall p :: p in Level(t, path, fate).nodes && p !in t.nodes ==>
              p == path && Level(t, path, fate).nodes[p].value == Blank
  {
  }

  /** Creates every level of the prefix from the top down; existing levels are left alone, and a
      level that fails does not stop the rest. */
  method CreatePrefix(t: Tree, prefix: string, fates: seq<Fate>) returns (t': Tree, reconnects: nat)
    requires prefix == "" || (ValidPath(prefix) && prefix[|prefix| - 1] != '/')
    ensures reconnects == 0 ==>
              && (prefix != "" ==> prefix in t'.nodes)
              && forall d :: 0 <= d < Slashes(prefix) ==> Cut(prefix, d).Some? && Anc(prefix, d) in t'.nodes
    ensures (forall d :: 0 <= d < |fates| ==> fates[d].Answered?) ==> reconnects == 0
    ensures forall p :: p in t.nodes ==> p in t'.nodes && t'.nodes[p] == t.nodes[p]
    ensures forall p :: p in t'.nodes && p !in t.nodes ==>
              t'.nodes[p].value == Blank && exists d :: 0 <= d < Slashes(prefix) && Cut(prefix, d) == Some(p)
  {
    t', reconnects := t, 0;
    if prefix == "" {
      return;
    }
    TopLevel(prefix);
    var i := Slashes(prefix);
    while i > 0
      invariant 0 <= i <= Slashes(prefix)
      invariant reconnects == 0 ==>
                  forall d :: i <= d < Slashes(prefix) ==> Cut(prefix, d).Some? && Anc(prefix, d) in t'.nodes
      invariant (forall d :: 0 <= d < |fates| ==> fates[d].Answered?) ==> reconnects == 0
      invariant forall p :: p in t.nodes ==> p in t'.nodes && t'.nodes[p] == t.nodes[p]
      invariant forall p :: p in t'.nodes && p !in t.nodes ==>
                  t'.nodes[p].value == Blank && exists d :: i <= d < Slashes(prefix) && Cut(prefix, d) == Some(p)
    {
      i := i - 1;
      LevelFits(prefix, i);
      var path := PathParent(prefix, i).value;
      LevelSpec(t', path, FateAt(fates, i));
      if Reconnects(t', path, FateAt(fates, i)) {
        reconnects := reconnects + 1;
      }
      t' := Level(t', path, FateAt(fates, i));
    }
    assert Anc(prefix, 0) == prefix;
  }
}
