/** The distributed lock action: what one lock client does with each reply it gets.
    The functions give the reaction as a value; `LockAction` is the action object that
    updates its fields in place and is proved to do exactly that. */
module LockRecipe {
  import opened Paths
  import opened Server

  /** Which submissions the connection accepts while one message is handled: the first and
      the second of the handler, and the delete issued when the action aborts. */
  datatype Net = Net(first: bool, second: bool, onAbort: bool)

  const UP := Net(true, true, true)

  /** The fields of the action and of its scope. `held` says that the scope still refers to
      the action; `grants`, `failures` and `reconnects` count what the outside was told. */
  datatype Lock = Lock(
    folder: string, value: Value,
    created: string, prev: string, depth: nat,
    closed: bool, held: bool,
    grants: nat, failures: nat, reconnects: nat)

  datatype Reaction = Reaction(lock: Lock, sent: seq<Request>)

  function LockPath(folder: string): string {
    Join(folder, "lock")
  }

  function NewLock(folder: string, value: Value): Lock {
    Lock(folder, value, "", "", 0, false, true, 0, 0, 0)
  }

  // ----- placing the own node among its siblings

  ghost predicate Sorted(s: seq<string>) {
    forall i, j :: 0 <= i < j < |s| ==> !Less(s[j], s[i])
  }

  function Insert(s: seq<string>, x: string): (r: seq<string>)
    ensures multiset(r) == multiset(s) + multiset{x}
  {
    if s == [] then [x]
    else if Less(s[0], x) then
      assert s == [s[0]] + s[1..];
      [s[0]] + Insert(s[1..], x)
    else [x] + s
  }

  function Sort(s: seq<string>): (r: seq<string>)
    ensures multiset(r) == multiset(s)
  {
    if s == [] then []
    else
      assert s == [s[0]] + s[1..];
      Insert(Sort(s[1..]), s[0])
  }

  lemma NotLessChains(a: string, b: string, x: string)
    requires Less(b, x) && !Less(b, a)
    ensures Less(a, x)
  {
    LessIsTotal(a, b);
    if a != b {
      LessIsTransitive(a, b, x);
    }
  }

  lemma SortedCons(x: string, s: seq<string>)
    requires Sorted(s) && forall n :: n in s ==> !Less(n, x)
    ensures Sorted([x] + s)
  {
    var r := [x] + s;
    forall i, j | 0 <= i < j < |r|
      ensures !Less(r[j], r[i])
    {
      assert r[j] == s[j - 1] && r[j] in s;
      assert i > 0 ==> r[i] == s[i - 1];
    }
  }

  lemma SortedHead(s: seq<string>, x: string)
    requires Sorted(s) && s != [] && !Less(s[0], x)
    ensures forall n :: n in s ==> !Less(n, x)
  {
    forall n | n in s
      ensures !Less(n, x)
    {
      var j :| 0 <= j < |s| && s[j] == n;
      if j > 0 && Less(s[j], x) {
        NotLessChains(s[0], s[j], x);
      }
    }
  }

  lemma {:induction false} InsertKeepsSorted(s: seq<string>, x: string)
    requires Sorted(s)
    ensures Sorted(Insert(s, x))
  {
    if s == [] {
    } else if Less(s[0], x) {
      var rest := Insert(s[1..], x);
      InsertKeepsSorted(s[1..], x);
      LessIsTotal(s[0], x);
      forall n | n in rest
        ensures !Less(n, s[0])
      {
        assert n in multiset(rest);
        assert n == x || n in s[1..];
      }
      SortedCons(s[0], rest);
    } else {
      SortedHead(s, x);
      SortedCons(x, s);
    }
  }

  lemma {:induction false} SortSorts(s: seq<string>)
    ensures Sorted(Sort(s))
  {
    if s != [] {
      SortSorts(s[1..]);
      InsertKeepsSorted(Sort(s[1..]), s[0]);
    }
  }

  datatype Place = Missing | First | After(name: string)

  /** How many leading names are below `x`: the start of the equal range of a sorted list. */
  function LowerBound(s: seq<string>, x: string): (i: nat)
    ensures i <= |s|
    ensures forall j :: 0 <= j < i ==> Less(s[j], x)
    ensures i < |s| ==> !Less(s[i], x)
  {
    if s == [] || !Less(s[0], x) then 0
    else 1 + LowerBound(s[1..], x)
  }

  function PlaceAt(sorted: seq<string>, name: string, i: nat): Place
    requires i <= |sorted|
  {
    if i == |sorted| || sorted[i] != name then Missing
    else if i == 0 then First
    else After(sorted[i - 1])
  }

  function PlaceOf(children: seq<string>, name: string): Place {
    var s := Sort(children);
    PlaceAt(s, name, LowerBound(s, name))
  }

  lemma BelowBound(s: seq<string>, x: string, j: nat)
    requires Sorted(s) && j < |s|
    ensures Less(s[j], x) <==> j < LowerBound(s, x)
  {
    var i := LowerBound(s, x);
    if i < j {
      AboveBound(s, x, i, j);
    }
  }

  lemma AboveBound(s: seq<string>, x: string, i: nat, j: nat)
    requires Sorted(s) && i < j < |s| && !Less(s[i], x)
    ensures !Less(s[j], x)
  {
    if Less(s[j], x) {
      NotLessChains(s[i], s[j], x);
    }
  }

  lemma SortKeepsMembers(s: seq<string>)
    ensures forall n :: n in s <==> n in Sort(s)
  {
    forall n
      ensures n in s <==> n in Sort(s)
    {
      assert n in s <==> n in multiset(s);
      assert n in Sort(s) <==> n in multiset(Sort(s));
    }
  }

  lemma FoundAtBound(s: seq<string>, x: string)
    requires Sorted(s)
    ensures x in s <==> LowerBound(s, x) < |s| && s[LowerBound(s, x)] == x
  {
    LessIsTotal(x, x);
    if x in s {
      var k :| 0 <= k < |s| && s[k] == x;
      var i := LowerBound(s, x);
      BelowBound(s, x, k);
      LessIsTotal(s[i], x);
    }
  }

  lemma PlaceFound(children: seq<string>, name: string)
    ensures PlaceOf(children, name).Missing? <==> name !in children
  {
    SortSorts(children);
    SortKeepsMembers(children);
    FoundAtBound(Sort(children), name);
  }

  lemma PlaceFirst(children: seq<string>, name: string)
    requires name in children
    ensures PlaceOf(children, name).First? <==> forall n :: n in children ==> !Less(n, name)
  {
    var s := Sort(children);
    PlaceFound(children, name);
    SortSorts(children);
    SortKeepsMembers(children);
    if LowerBound(s, name) > 0 {
      assert s[0] in children;
    } else {
      forall n | n in children
        ensures !Less(n, name)
      {
        var j :| 0 <= j < |s| && s[j] == n;
        BelowBound(s, name, j);
      }
    }
  }

  lemma PlaceAfter(children: seq<string>, name: string)
    requires PlaceOf(children, name).After?
    ensures var p := PlaceOf(children, name).name;
            && p in children && Less(p, name)
            && forall n :: n in children && Less(n, name) ==> !Less(p, n)
  {
    var s := Sort(children);
    var i := LowerBound(s, name);
    SortSorts(children);
    SortKeepsMembers(children);
    assert s[i - 1] in children;
    forall n | n in children && Less(n, name)
      ensures !Less(s[i - 1], n)
    {
      var j :| 0 <= j < |s| && s[j] == n;
      BelowBound(s, name, j);
      LessIsTotal(s[i - 1], s[i - 1]);
    }
  }

  /** Sorting and searching finds the greatest sibling below the own node, whatever order
      the server listed the children in. */
  lemma PlaceSpec(children: seq<string>, name: string)
    ensures PlaceOf(children, name).Missing? <==> name !in children
    ensures PlaceOf(children, name).First? <==> name in children && forall n :: n in children ==> !Less(n, name)
    ensures PlaceOf(children, name).After? ==>
              var p := PlaceOf(children, name).name;
              && p in children && Less(p, name)
              && forall n :: n in children && Less(n, name) ==> !Less(p, n)
  {
    PlaceFound(children, name);
    if name in children {
      PlaceFirst(children, name);
    }
    if PlaceOf(children, name).After? {
      PlaceAfter(children, name);
    }
  }

  // ----- reactions

  /** Deletes the own node, or reconnects when even that cannot be submitted. */
  function OnAbort(l: Lock, up: bool): Reaction {
    if l.held && l.created != "" then
      if up && ValidPath(l.created) then Reaction(l.(held := false), [Delete(l.created, -1)])
      else Reaction(l.(held := false, reconnects := l.reconnects + 1), [])
    else Reaction(l, [])
  }

  /** What an exception in a handler leads to. */
  function Abort(l: Lock, net: Net): Reaction {
    var r := OnAbort(l, net.onAbort);
    Reaction(r.lock.(failures := if l.closed then l.failures else l.failures + 1, closed := true), r.sent)
  }

  /** The user closes the scope. */
  function Close(l: Lock, up: bool): Reaction {
    if l.closed then Reaction(l, [])
    else
      var r := OnAbort(l, up);
      Reaction(r.lock.(closed := true), r.sent)
  }

  function Satisfy(l: Lock): Lock {
    if l.closed then l else l.(grants := l.grants + 1)
  }

  function Submit(l: Lock, r: Request, up: bool, net: Net): Reaction {
    if up && ValidPath(r.path) then Reaction(l, [r]) else Abort(l, net)
  }

  function CreateAncestor(l: Lock, net: Net): Reaction {
    match PathParent(LockPath(l.folder), l.depth)
    case None => Abort(l, net)
    case Some(p) => Submit(l, Create(p, Blank, false, false), net.first, net)
  }

  function Run(folder: string, value: Value, net: Net): Reaction {
    Submit(NewLock(folder, value), Create(LockPath(folder), value, true, true), net.first, net)
  }

  /** The own node exists; if the scope was closed meanwhile, it goes again at once. */
  function Entered(l: Lock, created: string, net: Net): Reaction {
    var l1 := l.(created := created);
    Submit(l1, if l.closed then Delete(created, -1) else Children(l.folder), net.first, net)
  }

  function Descend(l: Lock, net: Net): Reaction
    requires l.depth > 0
  {
    if l.depth == 1 then Submit(l.(depth := 0), Create(LockPath(l.folder), l.value, true, true), net.first, net)
    else CreateAncestor(l.(depth := l.depth - 1), net)
  }

  function OnCreate(l: Lock, rc: Code, created: string, net: Net): Reaction {
    match rc
    case Ok => if l.depth == 0 then Entered(l, created, net) else Descend(l, net)
    case NoNode => CreateAncestor(l.(depth := l.depth + 1), net)
    case _ => Abort(l, net)
  }

  function WatchPrevious(l: Lock, net: Net): Reaction {
    var first := Submit(l, Exists(l.prev, true), net.first, net);
    if !(net.first && ValidPath(l.prev)) then first
    else
      var second := Submit(l, Get(l.created, true), net.second, net);
      Reaction(second.lock, first.sent + second.sent)
  }

  function OnPlace(l: Lock, place: Place, net: Net): Reaction {
    match place
    case Missing => Abort(l, net)
    case First => Submit(Satisfy(l), Get(l.created, true), net.first, net)
    case After(p) =>
      if IsValidSequenceNode(p) then WatchPrevious(l.(prev := Join(l.folder, p)), net)
      else Abort(l, net)
  }

  function OnChildren(l: Lock, rc: Code, children: seq<string>, net: Net): Reaction {
    var node := NodeName(l.created);
    if !rc.Ok? || node.None? then Abort(l, net)
    else OnPlace(l, PlaceOf(children, node.value), net)
  }

  function OnGet(l: Lock, rc: Code, net: Net): Reaction {
    if rc.Ok? then Reaction(l, []) else Abort(l, net)
  }

  function OnExists(l: Lock, rc: Code, net: Net): Reaction {
    match rc
    case Ok => Reaction(l, [])
    case NoNode => Submit(l, Children(l.folder), net.first, net)
    case _ => Abort(l, net)
  }

  function OnEvent(l: Lock, kind: Kind, net: Net): Reaction {
    if kind.Deleted? then Submit(l, Children(l.folder), net.first, net) else Abort(l, net)
  }

  function OnDelete(l: Lock, rc: Code): Reaction {
    if rc.Ok? then Reaction(l, []) else Reaction(l.(reconnects := l.reconnects + 1), [])
  }

  function OnMessage(l: Lock, m: Message, net: Net): Reaction {
    match m
    case CreateReply(rc, created) => OnCreate(l, rc, created, net)
    case ChildrenReply(rc, children) => OnChildren(l, rc, children, net)
    case GetReply(rc, _, _, _, _) => OnGet(l, rc, net)
    case ExistsReply(rc) => OnExists(l, rc, net)
    case DeleteReply(rc) => OnDelete(l, rc)
    case Event(kind, _) => OnEvent(l, kind, net)
    case PutReply(_, _) => Reaction(l, [])
  }

  // ----- the action object

  /** Binary search for the place of `name` in a sorted listing. */
  method FindPlace(children: seq<string>, name: string) returns (place: Place)
    ensures place == PlaceOf(children, name)
  {
    var s := Sort(children);
    SortSorts(children);
    var lo, hi := 0, |s|;
    while lo < hi
      invariant 0 <= lo <= LowerBound(s, name) <= hi <= |s|
    {
      var mid := (lo + hi) / 2;
      BelowBound(s, name, mid);
      if Less(s[mid], name) {
        lo := mid + 1;
      } else {
        hi := mid;
      }
    }
    place := PlaceAt(s, name, lo);
  }

  class LockAction {
    const folder: string
    const value: Value
    var created: string
    var prev: string
    var depth: nat
    var closed: bool
    var held: bool
    var grants: nat
    var failures: nat
    var reconnects: nat
    var sent: seq<Request>

    function View(): Lock
      reads this
    {
      Lock(folder, value, created, prev, depth, closed, held, grants, failures, reconnects)
    }

    twostate predicate Reacted(r: Reaction)
      reads this
    {
      View() == r.lock && sent == old(sent) + r.sent
    }

    constructor (folder: string, value: Value)
      ensures View() == NewLock(folder, value) && sent == []
    {
      this.folder, this.value := folder, value;
      created, prev, depth := "", "", 0;
      closed, held := false, true;
      grants, failures, reconnects := 0, 0, 0;
      sent := [];
    }

    method ReleaseNode(up: bool)
      modifies this
      ensures Reacted(OnAbort(old(View()), up))
    {
      if held && created != "" {
        if up && ValidPath(created) {
          sent := sent + [Delete(created, -1)];
        } else {
          reconnects := reconnects + 1;
        }
        held := false;
      }
    }

    method AbortWithCurrentException(net: Net)
      modifies this
      ensures Reacted(Abort(old(View()), net))
    {
      ReleaseNode(net.onAbort);
      if !closed {
        failures := failures + 1;
      }
      closed := true;
    }

    method CloseScope(up: bool)
      modifies this
      ensures Reacted(Close(old(View()), up))
    {
      if !closed {
        ReleaseNode(up);
        closed := true;
      }
    }

    method SubmitRequest(r: Request, up: bool, net: Net)
      modifies this
      ensures Reacted(Submit(old(View()), r, up, net))
    {
      if up && ValidPath(r.path) {
        sent := sent + [r];
      } else {
        AbortWithCurrentException(net);
      }
    }

    method SubmitAncestor(net: Net)
      modifies this
      ensures Reacted(CreateAncestor(old(View()), net))
    {
      var p := PathParent(LockPath(folder), depth);
      if p.None? {
        AbortWithCurrentException(net);
      } else {
        SubmitRequest(Create(p.value, Blank, false, false), net.first, net);
      }
    }

    method OnEntered(path: string, net: Net)
      modifies this
      ensures Reacted(Entered(old(View()), path, net))
    {
      created := path;
      if !closed {
        SubmitRequest(Children(folder), net.first, net);
      } else {
        SubmitRequest(Delete(created, -1), net.first, net);
      }
    }

    method DescendOne(net: Net)
      requires depth > 0
      modifies this
      ensures Reacted(Descend(old(View()), net))
    {
      depth := depth - 1;
      if depth == 0 {
        SubmitRequest(Create(LockPath(folder), value, true, true), net.first, net);
      } else {
        SubmitAncestor(net);
      }
    }

    method OnCreateReply(rc: Code, path: string, net: Net)
      modifies this
      ensures Reacted(OnCreate(old(View()), rc, path, net))
    {
      if rc.Ok? {
        if depth == 0 {
          OnEntered(path, net);
        } else {
          DescendOne(net);
        }
      } else if rc.NoNode? {
        depth := depth + 1;
        SubmitAncestor(net);
      } else {
        AbortWithCurrentException(net);
      }
    }

    method WatchPreviousNode(net: Net)
      modifies this
      ensures Reacted(WatchPrevious(old(View()), net))
    {
      SubmitRequest(Exists(prev, true), net.first, net);
      if net.first && ValidPath(prev) {
        SubmitRequest(Get(created, true), net.second, net);
      }
    }

    method OnPlaceFound(place: Place, net: Net)
      modifies this
      ensures Reacted(OnPlace(old(View()), place, net))
    {
      match place {
        case Missing =>
          AbortWithCurrentException(net);
        case First =>
          if !closed {
            grants := grants + 1;
          }
          SubmitRequest(Get(created, true), net.first, net);
        case After(p) =>
          if !IsValidSequenceNode(p) {
            AbortWithCurrentException(net);
            return;
          }
          prev := Join(folder, p);
          WatchPreviousNode(net);
      }
    }

    method OnChildrenReply(rc: Code, children: seq<string>, net: Net)
      modifies this
      ensures Reacted(OnChildren(old(View()), rc, children, net))
    {
      var node := NodeName(created);
      if !rc.Ok? || node.None? {
        AbortWithCurrentException(net);
      } else {
        var place := FindPlace(children, node.value);
        OnPlaceFound(place, net);
      }
    }

    method OnExistsReply(rc: Code, net: Net)
      modifies this
      ensures Reacted(OnExists(old(View()), rc, net))
    {
      if rc.NoNode? {
        SubmitRequest(Children(folder), net.first, net);
      } else if !rc.Ok? {
        AbortWithCurrentException(net);
      }
    }

    method OnWatch(kind: Kind, net: Net)
      modifies this
      ensures Reacted(OnEvent(old(View()), kind, net))
    {
      if kind.Deleted? {
        SubmitRequest(Children(folder), net.first, net);
      } else {
        AbortWithCurrentException(net);
      }
    }

    /** One message, handled as the replier interface dispatches it. */
    method Handle(m: Message, net: Net)
      modifies this
      ensures Reacted(OnMessage(old(View()), m, net))
    {
      match m {
        case CreateReply(rc, path) => OnCreateReply(rc, path, net);
        case ChildrenReply(rc, children) => OnChildrenReply(rc, children, net);
        case GetReply(rc, _, _, _, _) =>
          if !rc.Ok? { AbortWithCurrentException(net); }
        case ExistsReply(rc) => OnExistsReply(rc, net);
        case DeleteReply(rc) =>
          if !rc.Ok? { reconnects := reconnects + 1; }
        case Event(kind, _) => OnWatch(kind, net);
        case PutReply(_, _) =>
      }
    }
  }
}
