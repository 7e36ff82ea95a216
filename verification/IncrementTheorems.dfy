/** No increment is lost and none is counted twice. */
module IncrementTheorems {
  import opened Machine
  import opened Wrappers
  import opened Server
  import opened IncrementRecipe
  import opened IncrementSystem

  /** The same history, possibly longer by one write. */
  ghost predicate Extends(s: System, s': System) {
    && s'.path == s.path && s'.start == s.start
    && (s'.log == s.log || (|s'.log| == |s.log| + 1 && s'.log[..|s.log|] == s.log))
  }

  lemma RecordedStays(s: System, s': System, value: Value, version: int, n: nat)
    requires Extends(s, s') && Recorded(s, value, version, n)
    ensures Recorded(s', value, version, n)
  {
    assert s'.log[..n] == s.log[..n];
  }

  lemma WrittenByStays(s: System, s': System, c: nat, value: Value, version: int)
    requires Extends(s, s') && WrittenBy(s, c, value, version)
    ensures WrittenBy(s', c, value, version)
  {
    var n :| 0 < n <= |s.log| && s.log[n - 1].client == c && Recorded(s, value, version, n);
    RecordedStays(s, s', value, version, n);
    assert s'.log[n - 1] == s.log[n - 1];
  }

  lemma HasWrittenStays(s: System, s': System, c: nat)
    requires Extends(s, s')
    requires |s'.log| > |s.log| ==> s'.log[|s.log|].client != c
    ensures HasWritten(s', c) ==> HasWritten(s, c)
  {
    if HasWritten(s', c) {
      var i :| 0 <= i < |s'.log| && s'.log[i].client == c;
      assert i < |s.log|;
      assert s.log[i] == s'.log[i];
    }
  }

  /** A client that did not write last keeps its place. */
  lemma LocalStays(s: System, s': System, c: nat, cl: Client)
    requires Local(s, c, cl) && Extends(s, s')
    requires |s'.log| > |s.log| ==> s'.log[|s.log|].client != c
    ensures Local(s', c, cl)
  {
    HasWrittenStays(s, s', c);
    var a, k := cl.action, cl.link;
    if Finished(s, c, cl) {
      WrittenByStays(s, s', c, a.told.value.0, a.told.value.1);
    } else if Stage(cl, 1, 0) && k.out[0].Put? {
      var v, version := k.out[0].value, k.out[0].version;
      var n: nat, stored :| Recorded(s, stored, version, n) && IsNumber(stored) && v == Add(stored, cl.operand);
      RecordedStays(s, s', stored, version, n);
    } else if Stage(cl, 0, 1) && k.inn[0].GetReply? && k.inn[0].rc.Ok? {
      var n :| Recorded(s, k.inn[0].value, k.inn[0].version, n);
      RecordedStays(s, s', k.inn[0].value, k.inn[0].version, n);
    } else if Stage(cl, 0, 1) && k.inn[0].PutReply? && k.inn[0].rc.Ok? {
      WrittenByStays(s, s', c, a.value, k.inn[0].version);
    } else if Stage(cl, 0, 1) && k.inn[0].CreateReply? && k.inn[0].rc.Ok? {
      WrittenByStays(s, s', c, a.value, 0);
    }
  }

  lemma ClientKeepsInv(s: System, c: nat, cl: Client)
    requires Inv(s) && Local(s, c, cl)
    requires c in s.clients ==> cl.operand == s.clients[c].operand
    ensures Inv(s.(clients := s.clients[c := cl]))
  {
    var s' := s.(clients := s.clients[c := cl]);
    forall d | d in s'.clients
      ensures Local(s', d, s'.clients[d])
    {
      LocalStays(s, s', d, s'.clients[d]);
    }
    SameWriters(s, c, cl);
  }

  lemma SameWriters(s: System, c: nat, cl: Client)
    requires OneWriteEach(s) && (c in s.clients ==> cl.operand == s.clients[c].operand)
    ensures OneWriteEach(s.(clients := s.clients[c := cl]))
  {
  }

  lemma NobodyWroteBefore(s: System, c: nat)
    requires OneWriteEach(s) && c !in s.clients
    ensures !HasWritten(s, c)
  {
  }

  lemma LocalBegins(s: System, c: nat, operand: Value, up: bool)
    requires Inv(s) && c !in s.clients
    ensures var r := Run(s.path, operand, up); Local(s, c, Client(r.action, Link(r.sent, [], []), operand))
  {
    NobodyWroteBefore(s, c);
  }

  lemma LocalHandled(s: System, c: nat, cl: Client, up: bool)
    requires Local(s, c, cl) && cl.link.inn != []
    ensures Local(s, c, Handled(cl, up))
  {
    var a, m := cl.action, cl.link.inn[0];
    var h := Handled(cl, up);
    assert cl.link.out + [] == cl.link.out;
    if m.GetReply? && m.rc.Ok? && h.link.out != [] {
      var n :| Recorded(s, m.value, m.version, n);
      assert h.link.out == [Put(s.path, Add(m.value, cl.operand), m.version)];
    }
  }

  // ----- serving

  lemma TotalGrows(start: Option<Value>, log: seq<Write>, w: Write)
    ensures Total(start, log + [w]) ==
            var before := Total(start, log);
            if before.None? || !IsNumber(before.value) || !IsNumber(w.operand) then Some(w.operand)
            else Some(Add(before.value, w.operand))
  {
    assert (log + [w])[..|log|] == log;
  }

  /** What a write that took effect leaves behind, and what the writer hears. */
  predicate Wrote(t: Tree, r: Request, o: Outcome)
    requires r.Put? || r.Create?
  {
    && (if r.Put? then PutCode(t, r.path, r.version).Ok? else r.path !in t.nodes)
    && var version := if r.Put? then t.nodes[r.path].version + 1 else 0;
    && r.path in o.tree.nodes && o.tree.nodes[r.path].value == r.value
    && o.tree.nodes[r.path].version == version && o.watch.None?
    && (o.reply == FailedReply(r) || o.reply == if r.Put? then PutReply(Ok, version) else CreateReply(Ok, r.path))
  }

  lemma WriteEffect(t: Tree, r: Request, fate: Fate)
    requires r.Put? || (r.Create? && !r.sequence)
    requires Serve(t, r, [], fate).change.Fired?
    ensures Wrote(t, r, Serve(t, r, [], fate))
  {
  }

  /** The value a client is about to write is the next total of the history. */
  lemma NextTotal(s: System, c: nat, cl: Client)
    requires NodeMatchesLog(s) && Tracks(s, c, cl) && Stage(cl, 1, 0)
    requires match cl.link.out[0]
             case Put(p, _, version) => PutCode(s.tree, p, version).Ok?
             case Create(p, _, _, _) => p !in s.tree.nodes
             case _ => false
    ensures Total(StartValue(s.start), s.log + [Write(c, cl.operand)]) == Some(cl.link.out[0].value)
    ensures IsNumber(cl.link.out[0].value) && IsNumber(cl.operand)
    ensures s.log == [] && s.start.Some? ==> IsNumber(s.start.value.value)
    ensures VersionAfter(s.start, |s.log| + 1) == if cl.link.out[0].Put? then s.tree.nodes[s.path].version + 1 else 0
  {
    var r := cl.link.out[0];
    TotalGrows(StartValue(s.start), s.log, Write(c, cl.operand));
    if r.Put? {
      var n: nat, stored :| Recorded(s, stored, r.version, n) && IsNumber(stored) && r.value == Add(stored, cl.operand);
      assert n == |s.log|;
      assert s.log[..n] == s.log;
    }
  }

  /** A write that took effect is the next entry of the history, and the writer's own. */
  lemma WriteIsNext(s: System, s': System, c: nat, operand: Value, value: Value)
    requires NodeMatchesLog(s)
    requires s'.path == s.path && s'.start == s.start && s'.log == s.log + [Write(c, operand)]
    requires Total(StartValue(s.start), s'.log) == Some(value) && IsNumber(value)
    requires s.path in s'.tree.nodes && s'.tree.nodes[s.path].value == value
    requires s'.tree.nodes[s.path].version == VersionAfter(s.start, |s.log| + 1)
    ensures NodeMatchesLog(s') && WrittenBy(s', c, value, VersionAfter(s.start, |s.log| + 1))
  {
    assert s'.log[..|s'.log|] == s'.log;
    assert Recorded(s', value, VersionAfter(s.start, |s'.log|), |s'.log|);
  }

  /** A writer that hears at most the truth about its write keeps its place. */
  lemma WriterHears(s: System, c: nat, h: Client, version: int)
    requires h.action.path == s.path && h.action.told.None? && h.link.watches == [] && Stage(h, 0, 1)
    requires match h.link.inn[0]
             case PutReply(rc, v) => rc.Ok? ==> v == version
             case CreateReply(rc, _) => rc.Ok? ==> version == 0
             case _ => false
    requires WrittenBy(s, c, h.action.value, version)
    ensures Local(s, c, h)
  {
  }

  lemma WriteCounts(s: System, s': System, c: nat, cl: Client, o: Outcome)
    requires NodeMatchesLog(s) && Numeric(s) && Tracks(s, c, cl) && Stage(cl, 1, 0)
    requires cl.link.out[0].Put? || cl.link.out[0].Create?
    requires Wrote(s.tree, cl.link.out[0], o)
    requires s'.path == s.path && s'.start == s.start && s'.tree == o.tree && s'.log == s.log + [Write(c, cl.operand)]
    ensures NodeMatchesLog(s') && Numeric(s')
    ensures WrittenBy(s', c, cl.link.out[0].value, VersionAfter(s.start, |s.log| + 1))
    ensures o.tree.nodes[s.path].version == VersionAfter(s.start, |s.log| + 1)
  {
    var r := cl.link.out[0];
    assert r.path == s.path;
    NextTotal(s, c, cl);
    WroteSpec(s.tree, r, o);
    WriteIsNext(s, s', c, cl.operand, r.value);
    NumericGrows(s, s', Write(c, cl.operand));
  }

  lemma WroteSpec(t: Tree, r: Request, o: Outcome)
    requires (r.Put? || r.Create?) && Wrote(t, r, o)
    ensures r.path in o.tree.nodes && o.tree.nodes[r.path].value == r.value
    ensures r.Put? ==> r.path in t.nodes
    ensures o.tree.nodes[r.path].version == if r.Put? then t.nodes[r.path].version + 1 else 0
  {
  }

  lemma NumericGrows(s: System, s': System, w: Write)
    requires Numeric(s) && s'.start == s.start && s'.log == s.log + [w] && IsNumber(w.operand)
    requires s.log == [] && s.start.Some? ==> IsNumber(s.start.value.value)
    ensures Numeric(s')
  {
  }

  lemma WriterIsAnswered(s: System, c: nat, fate: Fate)
    requires Inv(s) && Enabled(s, ServeNext(c, fate))
    requires Serve(s.tree, s.clients[c].link.out[0], [], fate).change.Fired?
    ensures var s' := Next(s, ServeNext(c, fate));
            !HasWritten(s, c) && NodeMatchesLog(s') && Numeric(s') && Local(s', c, s'.clients[c])
  {
    var s' := Next(s, ServeNext(c, fate));
    var cl := s.clients[c];
    var o := Serve(s.tree, cl.link.out[0], [], fate);
    assert Local(s, c, cl) && Stage(cl, 1, 0);
    WriteEffect(s.tree, cl.link.out[0], fate);
    WriteCounts(s, s', c, cl, o);
    AnswerAlone(cl.link, o);
    WriterHears(s', c, s'.clients[c], VersionAfter(s.start, |s.log| + 1));
  }

  lemma AnswerAlone(k: Link, o: Outcome)
    requires |k.out| == 1 && k.inn == [] && k.watches == [] && o.watch.None?
    ensures Answer(k, o) == Link([], [o.reply], [])
  {
  }

  lemma HistoryGrows(s: System, s': System, c: nat)
    requires Inv(s) && c in s.clients && !HasWritten(s, c)
    requires s'.path == s.path && s'.start == s.start
    requires s'.log == s.log + [Write(c, s.clients[c].operand)]
    requires s'.clients.Keys == s.clients.Keys && s'.clients[c].operand == s.clients[c].operand
    requires forall d :: d in s.clients && d != c ==> s'.clients[d] == s.clients[d]
    requires NodeMatchesLog(s') && Numeric(s') && Local(s', c, s'.clients[c])
    ensures Inv(s')
  {
    assert s'.log[..|s.log|] == s.log;
    forall d | d in s.clients && d != c
      ensures Local(s', d, s'.clients[d])
    {
      LocalStays(s, s', d, s.clients[d]);
    }
    OneMoreWrite(s, s', c);
  }

  lemma OneMoreWrite(s: System, s': System, c: nat)
    requires OneWriteEach(s) && c in s.clients && !HasWritten(s, c)
    requires s'.log == s.log + [Write(c, s.clients[c].operand)]
    requires s'.clients.Keys == s.clients.Keys && s'.clients[c].operand == s.clients[c].operand
    requires forall d :: d in s.clients && d != c ==> s'.clients[d] == s.clients[d]
    ensures OneWriteEach(s')
  {
    assert forall i :: 0 <= i < |s.log| ==> s'.log[i] == s.log[i] && s.log[i].client != c;
  }

  lemma ServeWrites(s: System, c: nat, fate: Fate)
    requires Inv(s) && Enabled(s, ServeNext(c, fate))
    requires Serve(s.tree, s.clients[c].link.out[0], [], fate).change.Fired?
    ensures Inv(Next(s, ServeNext(c, fate)))
  {
    WriterIsAnswered(s, c, fate);
    HistoryGrows(s, Next(s, ServeNext(c, fate)), c);
  }

  /** A request without effect leaves the reader with what the node held, or a refusal. */
  lemma ReaderIsAnswered(s: System, c: nat, fate: Fate)
    requires NodeMatchesLog(s) && Enabled(s, ServeNext(c, fate)) && Local(s, c, s.clients[c])
    requires Serve(s.tree, s.clients[c].link.out[0], [], fate).change.Silent?
    ensures var cl := s.clients[c];
            var o := Serve(s.tree, cl.link.out[0], [], fate);
            o.tree == s.tree && Local(s, c, cl.(link := Answer(cl.link, o)))
  {
    var cl := s.clients[c];
    var r := cl.link.out[0];
    var o := Serve(s.tree, r, [], fate);
    assert Stage(cl, 1, 0);
    AnswerAlone(cl.link, o);
    if r.Get? && o.reply.rc.Ok? {
      assert s.log[..|s.log|] == s.log;
      assert Recorded(s, o.reply.value, o.reply.version, |s.log|);
    }
  }

  lemma ServeReads(s: System, c: nat, fate: Fate)
    requires Inv(s) && Enabled(s, ServeNext(c, fate))
    requires Serve(s.tree, s.clients[c].link.out[0], [], fate).change.Silent?
    ensures Inv(Next(s, ServeNext(c, fate)))
  {
    var cl := s.clients[c];
    assert Local(s, c, cl);
    ReaderIsAnswered(s, c, fate);
    ClientKeepsInv(s, c, cl.(link := Answer(cl.link, Serve(s.tree, cl.link.out[0], [], fate))));
  }

  lemma ElsewhereKeepsInv(s: System, tree: Tree)
    requires Inv(s) && NodeAt(tree, s.path) == NodeAt(s.tree, s.path)
    ensures Inv(s.(tree := tree))
  {
    forall c | c in s.clients
      ensures Local(s.(tree := tree), c, s.clients[c])
    {
      LocalStays(s, s.(tree := tree), c, s.clients[c]);
    }
  }

  lemma CloseKeepsInv(s: System, c: nat)
    requires Inv(s) && c in s.clients
    ensures Inv(Next(s, CloseScope(c)))
  {
    assert Local(s, c, s.clients[c]);
    LocalClosed(s, c, s.clients[c]);
    ClientKeepsInv(s, c, s.clients[c].(action := s.clients[c].action.(closed := true)));
  }

  lemma LocalClosed(s: System, c: nat, cl: Client)
    requires Local(s, c, cl)
    ensures Local(s, c, cl.(action := cl.action.(closed := true)))
  {
  }

  lemma BeginKeepsInv(s: System, c: nat, operand: Value, up: bool)
    requires Inv(s) && Enabled(s, Begin(c, operand, up))
    ensures Inv(Next(s, Begin(c, operand, up)))
  {
    LocalBegins(s, c, operand, up);
    var r := Run(s.path, operand, up);
    ClientKeepsInv(s, c, Client(r.action, Link(r.sent, [], []), operand));
  }

  lemma StepKeepsInv(s: System, step: Step)
    requires Inv(s) && Enabled(s, step)
    ensures Inv(Next(s, step))
  {
    match step {
      case Begin(c, operand, up) => BeginKeepsInv(s, c, operand, up);
      case ServeNext(c, fate) =>
        if Serve(s.tree, s.clients[c].link.out[0], [], fate).change.Fired? {
          ServeWrites(s, c, fate);
        } else {
          ServeReads(s, c, fate);
        }
      case Deliver(c, up) =>
        LocalHandled(s, c, s.clients[c], up);
        ClientKeepsInv(s, c, Handled(s.clients[c], up));
      case CloseScope(c) => CloseKeepsInv(s, c);
      case Elsewhere(tree) => ElsewhereKeepsInv(s, tree);
    }
  }

  lemma {:induction false} RunsKeepInv(s0: System, steps: seq<Step>, s: System)
    requires Inv(s0) && Runs(s0, steps, s)
    ensures Inv(s)
    decreases |steps|
  {
    if steps != [] {
      StepKeepsInv(s0, steps[0]);
      RunsKeepInv(Next(s0, steps[0]), steps[1..], s);
    }
  }

  // ----- the guarantees

  /** The node always holds the starting value plus the operands of exactly the increments
      whose write took effect, each at most once, in the order of its versions. */
  lemma Conservation(s0: System, steps: seq<Step>, s: System)
    requires Initial(s0) && Runs(s0, steps, s)
    ensures NodeMatchesLog(s) && OneWriteEach(s)
  {
    RunsKeepInv(s0, steps, s);
  }

  lemma ToldIsWritten(s: System, c: nat)
    requires Inv(s) && c in s.clients && s.clients[c].action.told.Some?
    ensures WrittenBy(s, c, s.clients[c].action.told.value.0, s.clients[c].action.told.value.1)
  {
    assert Local(s, c, s.clients[c]);
  }

  lemma OneWriterPerVersion(s: System, c: nat, d: nat)
    requires c in s.clients && s.clients[c].action.told.Some? && d in s.clients && s.clients[d].action.told.Some?
    requires WrittenBy(s, c, s.clients[c].action.told.value.0, s.clients[c].action.told.value.1)
    requires WrittenBy(s, d, s.clients[d].action.told.value.0, s.clients[d].action.told.value.1)
    ensures s.clients[c].action.told.value.1 == s.clients[d].action.told.value.1 ==> c == d
  {
  }

  /** A client that was told a value and a version wrote exactly that value at exactly that
      version, and nobody else was told the same version. */
  lemma ToldTheTruth(s0: System, steps: seq<Step>, s: System, c: nat, d: nat)
    requires Initial(s0) && Runs(s0, steps, s)
    requires c in s.clients && s.clients[c].action.told.Some?
    requires d in s.clients && s.clients[d].action.told.Some?
    ensures WrittenBy(s, c, s.clients[c].action.told.value.0, s.clients[c].action.told.value.1)
    ensures s.clients[c].action.told.value.1 == s.clients[d].action.told.value.1 ==> c == d
  {
    RunsKeepInv(s0, steps, s);
    ToldIsWritten(s, c);
    ToldIsWritten(s, d);
    OneWriterPerVersion(s, c, d);
  }

  // ----- what the total is, in numbers

  function IntSum(log: seq<Write>): int
    requires forall w :: w in log ==> w.operand.Int?
  {
    if log == [] then 0 else IntSum(log[..|log| - 1]) + log[|log| - 1].operand.n
  }

  function RealSum(log: seq<Write>): real
    requires forall w :: w in log ==> IsNumber(w.operand)
  {
    if log == [] then 0.0 else RealSum(log[..|log| - 1]) + ToReal(log[|log| - 1].operand)
  }

  lemma AddWraps(a: int, b: int)
    ensures Add(Int(ToInt64(a)), Int(b)) == Int(ToInt64(a + b))
  {
    WrapAdds(a, b, TWO_63);
  }

  /** With integers only, the total is the plain sum reduced to 64 bits. */
  lemma {:induction false} IntegerTotal(start: int, log: seq<Write>)
    requires InRange64(start) && forall w :: w in log ==> w.operand.Int?
    ensures Total(Some(Int(start)), log) == Some(Int(ToInt64(start + IntSum(log))))
  {
    if log != [] {
      var rest, last := log[..|log| - 1], log[|log| - 1].operand;
      IntegerTotal(start, rest);
      AddWraps(start + IntSum(rest), last.n);
    } else {
      WrapFits(start, TWO_63);
    }
  }

  /** No integer addition of the run leaves the signed 64-bit range. */
  predicate NoOverflow(start: Value, log: seq<Write>)
    requires IsNumber(start) && forall w :: w in log ==> IsNumber(w.operand)
  {
    log == [] ||
    var rest, last := log[..|log| - 1], log[|log| - 1].operand;
    && NoOverflow(start, rest)
    && var before := Total(Some(start), rest);
    (before.Some? && before.value.Int? && last.Int? ==> InRange64(before.value.n + last.n))
  }

  /** Mixed with floating operands, the total is the sum of all of them. */
  lemma {:induction false} NumericTotal(start: Value, log: seq<Write>)
    requires IsNumber(start) && forall w :: w in log ==> IsNumber(w.operand)
    requires NoOverflow(start, log)
    ensures var total := Total(Some(start), log);
            total.Some? && IsNumber(total.value) && ToReal(total.value) == ToReal(start) + RealSum(log)
  {
    if log != [] {
      var rest, last := log[..|log| - 1], log[|log| - 1].operand;
      NumericTotal(start, rest);
      var before := Total(Some(start), rest).value;
      if before.Int? && last.Int? {
        WrapFits(before.n + last.n, TWO_63);
      }
    }
  }

  // ----- what the node holds, in every run

  predicate OperandsFit(log: seq<Write>) {
    forall w :: w in log ==> IsNumber(w.operand) && (w.operand.Int? ==> InRange64(w.operand.n))
  }

  /** Creating the node with the first operand is adding it to nothing. */
  lemma {:induction false} AbsentIsZero(log: seq<Write>)
    requires log != [] && OperandsFit(log)
    ensures Total(None, log) == Total(Some(Int(0)), log)
  {
    var rest, last := log[..|log| - 1], log[|log| - 1].operand;
    assert log[|log| - 1] in log;
    if rest == [] {
      if last.Int? {
        WrapFits(last.n, TWO_63);
      }
    } else {
      AbsentIsZero(rest);
    }
  }

  /** The number the run starts from: the node's, or nothing. */
  function StartNumber(start: Option<Node>): Value {
    if start.Some? then start.value.value else Int(0)
  }

  lemma NodeIsTheTotal(s0: System, steps: seq<Step>, s: System)
    requires Initial(s0) && Runs(s0, steps, s) && OperandsFit(s.log)
    ensures s.path in s.tree.nodes <==> s.start.Some? || s.log != []
    ensures s.path in s.tree.nodes ==> Some(s.tree.nodes[s.path].value) == Total(Some(StartNumber(s.start)), s.log)
    ensures s.log != [] ==> IsNumber(StartNumber(s.start))
  {
    RunsKeepInv(s0, steps, s);
    if s.start.None? && s.log != [] {
      AbsentIsZero(s.log);
    }
  }

  /** Integers only: in every run the node holds the starting number, 0 if it was absent, plus
      the operands of all writes that took effect, modulo 2^64. */
  lemma {:induction false} IntegerSum(s0: System, steps: seq<Step>, s: System)
    requires Initial(s0) && Runs(s0, steps, s) && OperandsFit(s.log)
    requires forall w :: w in s.log ==> w.operand.Int?
    requires StartNumber(s.start).Int? && InRange64(StartNumber(s.start).n)
    ensures s.path in s.tree.nodes <==> s.start.Some? || s.log != []
    ensures s.path in s.tree.nodes ==>
              s.tree.nodes[s.path].value == Int(ToInt64(StartNumber(s.start).n + IntSum(s.log)))
  {
    NodeIsTheTotal(s0, steps, s);
    IntegerTotal(StartNumber(s.start).n, s.log);
  }

  /** Any numbers, as long as no addition of integers overflows: in every run the node holds the
      starting number plus the operands of all writes that took effect. A node that is not a
      number is never written. */
  lemma {:induction false} NumericSum(s0: System, steps: seq<Step>, s: System)
    requires Initial(s0) && Runs(s0, steps, s) && OperandsFit(s.log)
    ensures !IsNumber(StartNumber(s.start)) ==>
              && s.log == [] && s.path in s.tree.nodes
              && s.tree.nodes[s.path].value == StartNumber(s.start)
              && s.tree.nodes[s.path].version == s.start.value.version
    ensures IsNumber(StartNumber(s.start)) && NoOverflow(StartNumber(s.start), s.log) && s.path in s.tree.nodes ==>
              var v := s.tree.nodes[s.path].value;
              IsNumber(v) && ToReal(v) == ToReal(StartNumber(s.start)) + RealSum(s.log)
  {
    NodeIsTheTotal(s0, steps, s);
    RunsKeepInv(s0, steps, s);
    if IsNumber(StartNumber(s.start)) && NoOverflow(StartNumber(s.start), s.log) {
      NumericTotal(StartNumber(s.start), s.log);
    }
  }
}
