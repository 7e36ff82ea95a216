/** Access control of the coordination service: how stored permissions decide an operation,
    and how the first modifying client claims an unowned prefix. */
module AclRecipe {
  datatype Right = Reading | Modifying

  /** A permission mask; `BOTH` is the mask of everything. */
  type Flags = set<Right>

  const BOTH: Flags := {Reading, Modifying}

  datatype Metainfo = Metainfo(clients: map<nat, Flags>, users: map<nat, Flags>)

  predicate IsEmpty(m: Metainfo) {
    m.clients == map[] && m.users == map[]
  }

  datatype Event =
    | CreateNode | PutNode | RemoveNode | DelNode | IncrementNode | LockNode
    | GetNode | SubscribeNode | ChildrenSubscribe

  /** Locking and everything that writes needs both rights. */
  function RequiredFlags(event: Event): Flags {
    match event
    case GetNode => {Reading}
    case SubscribeNode => {Reading}
    case ChildrenSubscribe => {Reading}
    case _ => BOTH
  }

  predicate IsModify(event: Event) {
    RequiredFlags(event) == BOTH
  }

  function Mask(acc: Flags, subjects: seq<nat>, perms: map<nat, Flags>): Flags
    decreases |subjects|
  {
    if subjects == [] then acc
    else Mask(acc * (if subjects[0] in perms then perms[subjects[0]] else {}), subjects[1..], perms)
  }

  /** What all the subjects together are granted; nobody is granted nothing. */
  function ExtractPermissions(subjects: seq<nat>, perms: map<nat, Flags>): Flags {
    if subjects == [] then {} else Mask(BOTH, subjects, perms)
  }

  predicate Allowed(event: Event, cids: seq<nat>, uids: seq<nat>, m: Metainfo) {
    var granted := ExtractPermissions(cids, m.clients) + ExtractPermissions(uids, m.users);
    granted * RequiredFlags(event) == RequiredFlags(event)
  }

  /** There is at least one subject and every one of them holds the right. */
  predicate HeldByAll(f: Right, subjects: seq<nat>, perms: map<nat, Flags>) {
    subjects != [] && forall id :: id in subjects ==> id in perms && f in perms[id]
  }

  lemma {:induction false} MaskSpec(acc: Flags, subjects: seq<nat>, perms: map<nat, Flags>, f: Right)
    ensures f in Mask(acc, subjects, perms) <==>
            f in acc && forall id :: id in subjects ==> id in perms && f in perms[id]
    decreases |subjects|
  {
    if subjects != [] {
      var s0 := subjects[0];
      MaskSpec(acc * (if s0 in perms then perms[s0] else {}), subjects[1..], perms, f);
      assert forall id :: id in subjects <==> id == s0 || id in subjects[1..];
    }
  }

  /** An operation is allowed exactly if each right it needs is held by all client ids, of
      which there is at least one, or by all user ids, of which there is at least one. */
  lemma AllowedIff(event: Event, cids: seq<nat>, uids: seq<nat>, m: Metainfo)
    ensures Allowed(event, cids, uids, m) <==>
            forall f :: f in RequiredFlags(event) ==> HeldByAll(f, cids, m.clients) || HeldByAll(f, uids, m.users)
  {
    var granted := ExtractPermissions(cids, m.clients) + ExtractPermissions(uids, m.users);
    forall f: Right
      ensures f in granted <==> HeldByAll(f, cids, m.clients) || HeldByAll(f, uids, m.users)
    {
      assert f == Reading || f == Modifying;
      MaskSpec(BOTH, cids, m.clients, f);
      MaskSpec(BOTH, uids, m.users, f);
    }
    var need := RequiredFlags(event);
    assert granted * need == need <==> forall f :: f in need ==> f in granted;
  }

  /** The first owner's permissions: both rights for exactly its own ids. */
  function OwnerOf(cids: seq<nat>, uids: seq<nat>): Metainfo {
    Metainfo(map id | id in cids :: BOTH, map id | id in uids :: BOTH)
  }

  method FillOwner(cids: seq<nat>, uids: seq<nat>) returns (m: Metainfo)
    ensures m == OwnerOf(cids, uids)
    ensures IsEmpty(m) <==> cids == [] && uids == []
  {
    var clients: map<nat, Flags>, users: map<nat, Flags> := map[], map[];
    for i := 0 to |cids|
      invariant clients == map id | id in cids[..i] :: BOTH
    {
      clients := clients[cids[i] := BOTH];
      assert cids[..i + 1] == cids[..i] + [cids[i]];
    }
    for i := 0 to |uids|
      invariant users == map id | id in uids[..i] :: BOTH
    {
      users := users[uids[i] := BOTH];
      assert uids[..i + 1] == uids[..i] + [uids[i]];
    }
    assert cids[..|cids|] == cids && uids[..|uids|] == uids;
    m := Metainfo(clients, users);
    OwnerIsNotEmpty(cids, uids);
  }

  lemma OwnerIsNotEmpty(cids: seq<nat>, uids: seq<nat>)
    ensures IsEmpty(OwnerOf(cids, uids)) <==> cids == [] && uids == []
  {
    var m := OwnerOf(cids, uids);
    assert cids != [] ==> cids[0] in m.clients;
    assert uids != [] ==> uids[0] in m.users;
  }

  /** The owner is allowed everything. */
  lemma OwnerIsAllowed(event: Event, cids: seq<nat>, uids: seq<nat>)
    requires cids != [] || uids != []
    ensures Allowed(event, cids, uids, OwnerOf(cids, uids))
  {
    AllowedIff(event, cids, uids, OwnerOf(cids, uids));
  }
}

/** Any number of verifications of one prefix, interleaved in any way. */
module AclRace {
  import opened Wrappers
  import opened AclRecipe

  /** The stored node; content that is not a permission table is `Garbage`. */
  datatype Acl = Absent | Garbage(version: nat) | Stored(meta: Metainfo, version: nat)

  datatype Verdict = Fine | Denied | BadFraming | Changed | BackendError

  datatype Phase =
    | Asking
    | Answered(seen: Acl)
    | Uploading(seen: Acl)
    | Uploaded(updated: bool, failed: bool)
    | Told(verdict: Verdict)

  /** `claims` remembers that the client went on to initialise the permissions, `looked` what it
      had looked up. */
  datatype Client = Client(event: Event, cids: seq<nat>, uids: seq<nat>, phase: Phase, claims: bool,
                           looked: Option<Acl>)

  datatype System = System(acl: Acl, clients: map<nat, Client>)

  datatype Step =
    | Verify(c: nat, event: Event, cids: seq<nat>, uids: seq<nat>)
    | Look(c: nat, failed: bool)
    | Decide(c: nat)
    | Write(c: nat, applied: bool, heard: bool)
    | Finish(c: nat)

  /** The decision taken on the permissions that were looked up. */
  function Decided(cl: Client, seen: Acl): Client {
    if seen.Garbage? then cl.(phase := Told(BadFraming))
    else
      var meta := if seen.Stored? then seen.meta else Metainfo(map[], map[]);
      if IsEmpty(meta) then
        if IsModify(cl.event) && (|cl.cids| > 0 || |cl.uids| > 0) then cl.(phase := Uploading(seen), claims := true)
        else cl.(phase := Told(Fine))
      else if Allowed(cl.event, cl.cids, cl.uids, meta) then cl.(phase := Told(Fine))
      else cl.(phase := Told(Denied))
  }

  /** A create succeeds only on an absent node, an update only on the version that was seen. */
  predicate Accepts(acl: Acl, seen: Acl) {
    if seen.Absent? then acl.Absent? else !acl.Absent? && acl.version == seen.version
  }

  function Claimed(acl: Acl, cl: Client): Acl {
    Stored(OwnerOf(cl.cids, cl.uids), if acl.Absent? then 0 else acl.version + 1)
  }

  ghost predicate Enabled(s: System, step: Step) {
    match step
    case Verify(c, _, _, _) => c !in s.clients
    case Look(c, _) => c in s.clients && s.clients[c].phase.Asking?
    case Decide(c) => c in s.clients && s.clients[c].phase.Answered?
    case Write(c, applied, heard) =>
      && c in s.clients && s.clients[c].phase.Uploading?
      && (if applied then Accepts(s.acl, s.clients[c].phase.seen)
          else Accepts(s.acl, s.clients[c].phase.seen) ==> !heard)
    case Finish(c) => c in s.clients && s.clients[c].phase.Uploaded?
  }

  /** What the upload's outcome means for the caller. */
  function Outcome(updated: bool, failed: bool): Verdict {
    if failed then BackendError else if updated then Fine else Changed
  }

  ghost function Next(s: System, step: Step): System
    requires Enabled(s, step)
  {
    match step
    case Verify(c, event, cids, uids) => s.(clients := s.clients[c := Client(event, cids, uids, Asking, false, None)])
    case Look(c, failed) =>
      var cl := s.clients[c];
      s.(clients := s.clients[c := if failed then cl.(phase := Told(BackendError))
                                   else cl.(phase := Answered(s.acl), looked := Some(s.acl))])
    case Decide(c) => s.(clients := s.clients[c := Decided(s.clients[c], s.clients[c].phase.seen)])
    case Write(c, applied, heard) =>
      var cl := s.clients[c];
      // Not heard: the answer was lost, whether or not the write was carried out.
      // An update refused because of the version is answered "not updated"; a create of an
      // existing node is answered with an error.
      var phase := Uploaded(applied, !heard || (!applied && cl.phase.seen.Absent?));
      System(if applied then Claimed(s.acl, cl) else s.acl, s.clients[c := cl.(phase := phase)])
    case Finish(c) =>
      var cl := s.clients[c];
      s.(clients := s.clients[c := cl.(phase := Told(Outcome(cl.phase.updated, cl.phase.failed)))])
  }

  ghost predicate Runs(s0: System, steps: seq<Step>, s: System)
    decreases |steps|
  {
    if steps == [] then s == s0
    else Enabled(s0, steps[0]) && Runs(Next(s0, steps[0]), steps[1..], s)
  }

  /** Nobody owns the prefix yet. */
  predicate Unowned(acl: Acl) {
    acl.Absent? || (acl.Stored? && IsEmpty(acl.meta))
  }

  ghost predicate Initial(s: System) {
    s.clients == map[] && Unowned(s.acl)
  }

  // ----- the race

  predicate Won(cl: Client) {
    cl.claims && ((cl.phase.Uploaded? && cl.phase.updated) || cl.phase == Told(Fine))
  }

  /** Somebody's own permissions replaced the initial node `first`. */
  predicate Replaced(first: Acl, acl: Acl) {
    acl.Stored? && !IsEmpty(acl.meta) && !Accepts(acl, first)
  }

  predicate Local(first: Acl, acl: Acl, cl: Client) {
    && (cl.phase.Answered? ==> cl.phase.seen == first || (cl.phase.seen.Stored? && !IsEmpty(cl.phase.seen.meta)))
    && (cl.phase.Uploading? ==> cl.phase.seen == first)
    && (cl.claims ==> !cl.phase.Asking? && !cl.phase.Answered? && (cl.cids != [] || cl.uids != []))
    && (cl.phase.Uploading? || cl.phase.Uploaded? ==> cl.claims)
    && (Won(cl) ==> Replaced(first, acl) && acl.meta == OwnerOf(cl.cids, cl.uids))
  }

  ghost predicate Inv(first: Acl, s: System) {
    && (s.acl == first || Replaced(first, s.acl))
    && (forall c :: c in s.clients ==> Local(first, s.acl, s.clients[c]))
    && (forall c, d :: c in s.clients && d in s.clients && Won(s.clients[c]) && Won(s.clients[d]) ==> c == d)
  }

  lemma ClientKeepsInv(first: Acl, s: System, c: nat, cl: Client)
    requires Inv(first, s) && Local(first, s.acl, cl)
    requires Won(cl) ==> c in s.clients && Won(s.clients[c])
    ensures Inv(first, s.(clients := s.clients[c := cl]))
  {
  }

  lemma WriteKeepsInv(first: Acl, s: System, c: nat, applied: bool, heard: bool)
    requires Unowned(first) && Inv(first, s) && Enabled(s, Write(c, applied, heard))
    ensures Inv(first, Next(s, Write(c, applied, heard)))
  {
    var cl := s.clients[c];
    assert Local(first, s.acl, cl);
    OwnerIsNotEmpty(cl.cids, cl.uids);
    var s' := Next(s, Write(c, applied, heard));
    if applied {
      assert s.acl == first && Replaced(first, s'.acl);
      assert forall d :: d in s.clients ==> !Won(s.clients[d]) by {
        assert forall d :: d in s.clients ==> Local(first, s.acl, s.clients[d]);
      }
      forall d | d in s.clients && d != c
        ensures Local(first, s'.acl, s'.clients[d])
      {
        assert Local(first, s.acl, s.clients[d]);
      }
    } else {
      ClientKeepsInv(first, s, c, s'.clients[c]);
    }
  }

  lemma StepKeepsInv(first: Acl, s: System, step: Step)
    requires Unowned(first) && Inv(first, s) && Enabled(s, step)
    ensures Inv(first, Next(s, step))
  {
    var c := step.c;
    if step.Write? {
      WriteKeepsInv(first, s, c, step.applied, step.heard);
    } else {
      ClientKeepsInv(first, s, c, Next(s, step).clients[c]);
    }
  }

  lemma {:induction false} RunsKeepInv(first: Acl, s0: System, steps: seq<Step>, s: System)
    requires Unowned(first) && Inv(first, s0) && Runs(s0, steps, s)
    ensures Inv(first, s)
    decreases |steps|
  {
    if steps != [] {
      StepKeepsInv(first, s0, steps[0]);
      RunsKeepInv(first, Next(s0, steps[0]), steps[1..], s);
    }
  }

  /** From an unowned prefix, at most one of the clients that try to initialise it is told
      that it succeeded; the stored permissions are then exactly that client's, and every
      other one that has been told anything was told an error. */
  lemma AtMostOneOwner(s0: System, steps: seq<Step>, s: System, c: nat)
    requires Initial(s0) && Runs(s0, steps, s)
    requires c in s.clients && s.clients[c].claims && s.clients[c].phase == Told(Fine)
    ensures s.acl.Stored? && s.acl.meta == OwnerOf(s.clients[c].cids, s.clients[c].uids)
    ensures forall d :: d in s.clients && d != c && s.clients[d].claims && s.clients[d].phase.Told? ==>
              s.clients[d].phase != Told(Fine)
  {
    RunsKeepInv(s0.acl, s0, steps, s);
    assert Won(s.clients[c]);
  }

  // ----- somebody wins

  /** The answer to an upload always arrives. */
  predicate Heard(step: Step) {
    step.Write? ==> step.heard
  }

  ghost predicate HeardRun(s0: System, steps: seq<Step>, s: System)
    decreases |steps|
  {
    if steps == [] then s == s0
    else Enabled(s0, steps[0]) && Heard(steps[0]) && HeardRun(Next(s0, steps[0]), steps[1..], s)
  }

  /** It wants to modify and has an id to own the prefix with. */
  predicate MayOwn(cl: Client) {
    IsModify(cl.event) && (cl.cids != [] || cl.uids != [])
  }

  /** It was answered, and not because its lookup failed. */
  predicate Served(cl: Client) {
    cl.phase.Uploaded? || (cl.phase.Told? && (cl.phase.verdict != BackendError || cl.claims))
  }

  predicate Honest(first: Acl, acl: Acl, cl: Client) {
    && (MayOwn(cl) && Served(cl) ==> Replaced(first, acl))
    && (cl.phase.Answered? && !Unowned(cl.phase.seen) ==> Replaced(first, acl))
    && (cl.phase.Uploaded? && cl.phase.updated ==> !cl.phase.failed)
    && (cl.claims ==> MayOwn(cl))
  }

  ghost predicate HeardInv(first: Acl, s: System) {
    && (forall c :: c in s.clients ==> Honest(first, s.acl, s.clients[c]))
    && (Replaced(first, s.acl) ==> exists c :: c in s.clients && Won(s.clients[c]))
  }

  lemma HonestStep(first: Acl, s: System, step: Step)
    requires Unowned(first) && Inv(first, s) && HeardInv(first, s) && Enabled(s, step) && !step.Write?
    ensures var t := Next(s, step); t.acl == s.acl && Honest(first, t.acl, t.clients[step.c])
    ensures step.c in s.clients && Won(s.clients[step.c]) ==> Won(Next(s, step).clients[step.c])
  {
    if step.c in s.clients {
      assert Local(first, s.acl, s.clients[step.c]) && Honest(first, s.acl, s.clients[step.c]);
    }
  }

  lemma OthersStayHonest(first: Acl, s: System, t: System, c: nat)
    requires HeardInv(first, s) && t.clients.Keys == s.clients.Keys + {c} && Honest(first, t.acl, t.clients[c])
    requires forall d :: d in s.clients && d != c ==> t.clients[d] == s.clients[d]
    requires Replaced(first, s.acl) ==> Replaced(first, t.acl)
    ensures forall d :: d in t.clients ==> Honest(first, t.acl, t.clients[d])
  {
    forall d | d in t.clients && d != c
      ensures Honest(first, t.acl, t.clients[d])
    {
      assert Honest(first, s.acl, s.clients[d]);
    }
  }

  /** The first upload that is heard is applied; afterwards the prefix has an owner. */
  lemma HeardWrite(first: Acl, s: System, c: nat, applied: bool)
    requires Unowned(first) && Inv(first, s) && HeardInv(first, s) && Enabled(s, Write(c, applied, true))
    ensures var t := Next(s, Write(c, applied, true));
      && Replaced(first, t.acl) && Honest(first, t.acl, t.clients[c])
      && (if applied then Won(t.clients[c]) else t.acl == s.acl)
  {
    var cl := s.clients[c];
    assert Local(first, s.acl, cl) && Honest(first, s.acl, cl);
    OwnerIsNotEmpty(cl.cids, cl.uids);
  }

  lemma StepKeepsHeard(first: Acl, s: System, step: Step)
    requires Unowned(first) && Inv(first, s) && HeardInv(first, s) && Enabled(s, step) && Heard(step)
    ensures HeardInv(first, Next(s, step))
  {
    var t := Next(s, step);
    if step.Write? {
      HeardWrite(first, s, step.c, step.applied);
      if !step.applied {
        var w :| w in s.clients && Won(s.clients[w]);
        assert w in t.clients && Won(t.clients[w]);
      } else {
        assert step.c in t.clients && Won(t.clients[step.c]);
      }
    } else {
      HonestStep(first, s, step);
      if Replaced(first, s.acl) {
        var w :| w in s.clients && Won(s.clients[w]);
        assert w in t.clients && Won(t.clients[w]);
      }
    }
    OthersStayHonest(first, s, t, step.c);
  }

  lemma {:induction false} HeardRunKeeps(first: Acl, s0: System, steps: seq<Step>, s: System)
    requires Unowned(first) && Inv(first, s0) && HeardInv(first, s0) && HeardRun(s0, steps, s)
    ensures Inv(first, s) && HeardInv(first, s)
    decreases |steps|
  {
    if steps != [] {
      StepKeepsInv(first, s0, steps[0]);
      StepKeepsHeard(first, s0, steps[0]);
      HeardRunKeeps(first, Next(s0, steps[0]), steps[1..], s);
    }
  }

  /** From an unowned prefix, as long as every upload is answered: once a client that may own it
      has been served, exactly one client has won, the stored permissions are its own, and if it
      has been told anything, it was told success. */
  lemma {:induction false} ExactlyOneOwner(s0: System, steps: seq<Step>, s: System, c: nat) returns (w: nat)
    requires Initial(s0) && HeardRun(s0, steps, s)
    requires c in s.clients && MayOwn(s.clients[c]) && Served(s.clients[c])
    ensures w in s.clients && Won(s.clients[w]) && (s.clients[w].phase.Told? ==> s.clients[w].phase == Told(Fine))
    ensures s.acl.Stored? && s.acl.meta == OwnerOf(s.clients[w].cids, s.clients[w].uids)
    ensures forall d :: d in s.clients && d != w && s.clients[d].claims && s.clients[d].phase.Told? ==>
              s.clients[d].phase != Told(Fine)
  {
    HeardRunKeeps(s0.acl, s0, steps, s);
    assert Honest(s0.acl, s.acl, s.clients[c]);
    w :| w in s.clients && Won(s.clients[w]);
    assert Local(s0.acl, s.acl, s.clients[w]);
  }

  // ----- what everybody else is told

  /** Locking and everything that writes. */
  predicate Writing(event: Event) {
    !event.GetNode? && !event.SubscribeNode? && !event.ChildrenSubscribe?
  }

  /** Reading is needed for everything, modifying for what writes; each right has to be held by
      all client ids or by all user ids. */
  predicate Entitled(event: Event, cids: seq<nat>, uids: seq<nat>, m: Metainfo) {
    && (HeldByAll(Reading, cids, m.clients) || HeldByAll(Reading, uids, m.users))
    && (Writing(event) ==> HeldByAll(Modifying, cids, m.clients) || HeldByAll(Modifying, uids, m.users))
  }

  lemma AllowedIsEntitled(event: Event, cids: seq<nat>, uids: seq<nat>, m: Metainfo)
    ensures Allowed(event, cids, uids, m) <==> Entitled(event, cids, uids, m)
  {
    AllowedIff(event, cids, uids, m);
    assert Reading in RequiredFlags(event);
    assert Modifying in RequiredFlags(event) <==> Writing(event);
  }

  /** The verdict that what was looked up calls for, when the client does not claim the prefix. */
  function Due(cl: Client): Verdict {
    match cl.looked
    case None => BackendError
    case Some(Absent) => Fine
    case Some(Garbage(_)) => BadFraming
    case Some(Stored(meta, _)) =>
      if IsEmpty(meta) || Entitled(cl.event, cl.cids, cl.uids, meta) then Fine else Denied
  }

  /** Somebody who writes and has an id claims what nobody owns. */
  predicate MustClaim(cl: Client) {
    cl.looked.Some? && Unowned(cl.looked.value) && Writing(cl.event) && (|cl.cids| > 0 || |cl.uids| > 0)
  }

  predicate Judged(cl: Client) {
    && (cl.phase.Asking? ==> cl.looked.None? && !cl.claims)
    && (cl.phase.Answered? ==> cl.looked == Some(cl.phase.seen) && !cl.claims)
    && (cl.phase.Uploading? || cl.phase.Uploaded? ==> cl.claims)
    && (cl.phase.Told? && !cl.claims ==> !MustClaim(cl) && cl.phase.verdict == Due(cl))
    && (cl.claims ==> MustClaim(cl))
  }

  lemma DecidedIsJudged(cl: Client, seen: Acl)
    requires cl.phase == Answered(seen) && cl.looked == Some(seen) && !cl.claims
    ensures Judged(Decided(cl, seen))
  {
    if seen.Stored? {
      AllowedIsEntitled(cl.event, cl.cids, cl.uids, seen.meta);
    }
    assert IsModify(cl.event) <==> Writing(cl.event) by {
      assert Modifying in BOTH;
    }
  }

  ghost predicate AllJudged(s: System) {
    forall c :: c in s.clients ==> Judged(s.clients[c])
  }

  lemma StepKeepsJudged(s: System, step: Step)
    requires AllJudged(s) && Enabled(s, step)
    ensures AllJudged(Next(s, step))
  {
    if step.Decide? {
      DecidedIsJudged(s.clients[step.c], s.clients[step.c].phase.seen);
    }
  }

  lemma {:induction false} RunsKeepJudged(s0: System, steps: seq<Step>, s: System)
    requires AllJudged(s0) && Runs(s0, steps, s)
    ensures AllJudged(s)
    decreases |steps|
  {
    if steps != [] {
      StepKeepsJudged(s0, steps[0]);
      RunsKeepJudged(Next(s0, steps[0]), steps[1..], s);
    }
  }

  /** In every run from any stored permissions: a client claims the prefix if and only if it found
      it unowned, writes and has an id; every other one is told what the permissions it found
      call for - denied exactly if there are some and it lacks a right it needs. */
  lemma {:induction false} VerdictIsDue(s0: System, steps: seq<Step>, s: System, c: nat)
    requires s0.clients == map[] && Runs(s0, steps, s) && c in s.clients && s.clients[c].phase.Told?
    ensures s.clients[c].claims <==> MustClaim(s.clients[c])
    ensures !s.clients[c].claims ==> s.clients[c].phase.verdict == Due(s.clients[c])
  {
    RunsKeepJudged(s0, steps, s);
  }

  // ----- what a claim is told

  /** Whether the client's write was carried out and heard of, if the step is that write. */
  function WriteIn(made: Option<(bool, bool)>, step: Step, c: nat): Option<(bool, bool)> {
    if step.Write? && step.c == c then Some((step.applied, step.heard)) else made
  }

  /** The same, if it is among the steps. */
  function WriteOf(made: Option<(bool, bool)>, steps: seq<Step>, c: nat): Option<(bool, bool)>
    decreases |steps|
  {
    if steps == [] then made else WriteOf(WriteIn(made, steps[0], c), steps[1..], c)
  }

  /** The answer to a claim: lost or an error is a backend error, a version that moved on is a
      change, and the rest is success. */
  function Reported(create: bool, applied: bool, heard: bool): Verdict {
    if heard && applied then Fine else if heard && !create then Changed else BackendError
  }

  /** There was no table when the client looked. */
  predicate FoundNothing(cl: Client) {
    cl.looked == Some(Absent)
  }

  predicate HearsOfWrite(cl: Client, made: Option<(bool, bool)>) {
    match cl.phase
    case Asking => !cl.claims
    case Answered(seen) => !cl.claims && cl.looked == Some(seen)
    case Uploading(seen) => cl.claims && cl.looked == Some(seen)
    case Uploaded(updated, failed) =>
      cl.claims && made.Some? && Outcome(updated, failed) == Reported(FoundNothing(cl), made.value.0, made.value.1)
    case Told(verdict) =>
      cl.claims ==> made.Some? && verdict == Reported(FoundNothing(cl), made.value.0, made.value.1)
  }

  lemma StepHearsOfWrite(s: System, step: Step, c: nat, made: Option<(bool, bool)>)
    requires Enabled(s, step) && (c in s.clients ==> HearsOfWrite(s.clients[c], made))
    ensures c in Next(s, step).clients ==> HearsOfWrite(Next(s, step).clients[c], WriteIn(made, step, c))
  {
  }

  lemma {:induction false} RunHearsOfWrite(s: System, steps: seq<Step>, t: System, c: nat, made: Option<(bool, bool)>)
    requires Runs(s, steps, t) && (c in s.clients ==> HearsOfWrite(s.clients[c], made))
    ensures c in t.clients ==> HearsOfWrite(t.clients[c], WriteOf(made, steps, c))
    decreases |steps|
  {
    if steps != [] {
      StepHearsOfWrite(s, steps[0], c, made);
      RunHearsOfWrite(Next(s, steps[0]), steps[1..], t, c, WriteIn(made, steps[0], c));
    }
  }

  /** In every run, from any stored table: a client that claimed the prefix is told success exactly
      if its write was carried out and it heard so; that the permissions changed exactly if it heard
      that its update of an existing table was refused; and a backend error otherwise. */
  lemma ClaimIsToldTheOutcome(s0: System, steps: seq<Step>, s: System, c: nat)
    requires s0.clients == map[] && Runs(s0, steps, s)
    requires c in s.clients && s.clients[c].claims && s.clients[c].phase.Told?
    ensures var made := WriteOf(None, steps, c);
      && made.Some?
      && (s.clients[c].phase.verdict == Fine <==> made.value == (true, true))
      && (s.clients[c].phase.verdict == Changed <==> made.value == (false, true) && !FoundNothing(s.clients[c]))
      && (s.clients[c].phase.verdict == BackendError <==>
            !made.value.1 || (made.value == (false, true) && FoundNothing(s.clients[c])))
  {
    RunHearsOfWrite(s0, steps, s, c, None);
  }

  // ----- the owner afterwards

  /** The prefix belongs to these ids, and whoever came since `known` found it so. */
  ghost predicate Settled(s: System, owner: Metainfo, known: set<nat>) {
    && s.acl.Stored? && s.acl.meta == owner
    && forall d :: d in s.clients && d !in known && s.clients[d].looked.Some? ==>
         s.clients[d].looked.value.Stored? && s.clients[d].looked.value.meta == owner
  }

  predicate Owns(s: System, w: nat) {
    w in s.clients && s.clients[w].claims && s.clients[w].phase == Told(Fine)
  }

  lemma StepKeepsSettled(first: Acl, s: System, step: Step, w: nat, known: set<nat>)
    requires Unowned(first) && Inv(first, s) && Enabled(s, step) && Owns(s, w)
    requires Settled(s, OwnerOf(s.clients[w].cids, s.clients[w].uids), known)
    ensures var t := Next(s, step);
      && Owns(t, w) && t.clients[w] == s.clients[w]
      && Settled(t, OwnerOf(s.clients[w].cids, s.clients[w].uids), known)
  {
    assert Won(s.clients[w]);
    assert Local(first, s.acl, s.clients[w]);
    if step.Write? {
      assert Local(first, s.acl, s.clients[step.c]);
    }
  }

  lemma {:induction false} RunsKeepSettled(first: Acl, s: System, steps: seq<Step>, t: System, w: nat, known: set<nat>)
    requires Unowned(first) && Inv(first, s) && Runs(s, steps, t) && Owns(s, w)
    requires Settled(s, OwnerOf(s.clients[w].cids, s.clients[w].uids), known)
    ensures Inv(first, t) && Owns(t, w) && Settled(t, OwnerOf(s.clients[w].cids, s.clients[w].uids), known)
    decreases |steps|
  {
    if steps != [] {
      StepKeepsInv(first, s, steps[0]);
      StepKeepsSettled(first, s, steps[0], w, known);
      RunsKeepSettled(first, Next(s, steps[0]), steps[1..], t, w, known);
    }
  }

  lemma OwnerIsEntitled(event: Event, cids: seq<nat>, uids: seq<nat>)
    requires |cids| > 0 || |uids| > 0
    ensures !IsEmpty(OwnerOf(cids, uids)) && Entitled(event, cids, uids, OwnerOf(cids, uids))
  {
    OwnerIsNotEmpty(cids, uids);
    OwnerIsAllowed(event, cids, uids);
    AllowedIsEntitled(event, cids, uids, OwnerOf(cids, uids));
  }

  /** Once a client owns the prefix, every later request of any kind under the same ids is told
      success, unless its lookup failed, and every later one under ids that lack a right it needs
      is denied. */
  lemma {:induction false} OwnerCanDoAnything(s0: System, steps: seq<Step>, s: System, w: nat, more: seq<Step>,
                                              t: System, d: nat)
    requires Initial(s0) && Runs(s0, steps, s) && Owns(s, w)
    requires Runs(s, more, t) && d in t.clients && d !in s.clients && t.clients[d].phase.Told?
    ensures t.clients[d].cids == s.clients[w].cids && t.clients[d].uids == s.clients[w].uids ==>
              t.clients[d].phase.verdict == if t.clients[d].looked.Some? then Fine else BackendError
    ensures t.clients[d].looked.Some? &&
            !Entitled(t.clients[d].event, t.clients[d].cids, t.clients[d].uids,
                      OwnerOf(s.clients[w].cids, s.clients[w].uids)) ==>
              t.clients[d].phase.verdict == Denied
  {
    RunsKeepInv(s0.acl, s0, steps, s);
    RunsKeepJudged(s0, steps, s);
    RunsKeepJudged(s, more, t);
    assert Won(s.clients[w]) && Local(s0.acl, s.acl, s.clients[w]);
    RunsKeepSettled(s0.acl, s, more, t, w, s.clients.Keys);
    OwnerIsEntitled(t.clients[d].event, s.clients[w].cids, s.clients[w].uids);
    assert Judged(t.clients[d]);
  }
}
