/** The coordination server as its clients see it: a tree of versioned nodes, answers that
    reach each client in the order its requests were served, and one-shot watches that are
    registered together with the read that asked for them. */
module Server {
  import opened Wrappers
  import opened Paths

  datatype Value = Blank | Int(n: int) | Double(x: real) | Text(s: string)

  /** `epoch` tells two nodes apart that were created at the same path one after the other. */
  datatype Node = Node(value: Value, version: nat, epoch: nat)

  /** `counter` numbers sequence nodes; `epoch` numbers creations. */
  datatype Tree = Tree(nodes: map<string, Node>, epoch: nat, counter: nat)

  datatype Code = Ok | NoNode | NodeExists | BadVersion | Failed

  datatype Request =
    | Create(path: string, value: Value, ephemeral: bool, sequence: bool)
    | Put(path: string, value: Value, version: int)
    | Get(path: string, watch: bool)
    | Exists(path: string, watch: bool)
    | Children(path: string)
    | Delete(path: string, version: int)

  datatype Kind = Created | Changed | Deleted | Session(connected: bool)

  datatype Message =
    | CreateReply(rc: Code, created: string)
    | PutReply(rc: Code, version: nat)
    | GetReply(rc: Code, value: Value, version: nat, epoch: nat, hasChildren: bool)
    | ExistsReply(rc: Code)
    | ChildrenReply(rc: Code, children: seq<string>)
    | DeleteReply(rc: Code)
    | Event(kind: Kind, path: string)

  /** A change of the tree that data watches react to. */
  datatype Change = Silent | Fired(kind: Kind, path: string)

  /** One client's connection: requests not served yet, messages not handled yet, and the
      paths it has one-shot watches on (the registry of the connection; one entry a watcher). */
  datatype Link = Link(out: seq<Request>, inn: seq<Message>, watches: seq<string>)

  // ----- the tree

  predicate ParentExists(t: Tree, path: string) {
    var parent := PathParent(path, 1);
    parent.Some? && (parent.value == "" || parent.value in t.nodes)
  }

  function ChildNames(t: Tree, folder: string): set<string> {
    set p | p in t.nodes && PathParent(p, 1) == Some(folder) && NodeName(p).Some? :: NodeName(p).value
  }

  lemma ChildNamesAreChildren(t: Tree, folder: string, name: string)
    ensures name in ChildNames(t, folder) <==> NoSlash(name) && name != "" && Join(folder, name) in t.nodes
  {
    if NoSlash(name) && name != "" {
      ParentOfJoin(folder, name);
      NodeNameOfJoin(folder, name);
    }
    if name in ChildNames(t, folder) {
      var p :| p in t.nodes && PathParent(p, 1) == Some(folder) && NodeName(p) == Some(name);
      assert p == Join(folder, name);
    }
  }

  ghost predicate Enumerates(listing: seq<string>, names: set<string>) {
    && (forall n :: n in names <==> n in listing)
    && (forall i, j :: 0 <= i < j < |listing| ==> listing[i] != listing[j])
  }

  function CreateCode(t: Tree, path: string): Code {
    if path in t.nodes then NodeExists else if ParentExists(t, path) then Ok else NoNode
  }

  function WithNode(t: Tree, path: string, value: Value): Tree {
    t.(nodes := t.nodes[path := Node(value, 0, t.epoch)], epoch := t.epoch + 1)
  }

  function WithValue(t: Tree, path: string, value: Value): Tree
    requires path in t.nodes
  {
    t.(nodes := t.nodes[path := Node(value, t.nodes[path].version + 1, t.nodes[path].epoch)])
  }

  function WithoutNode(t: Tree, path: string): Tree {
    t.(nodes := t.nodes - {path})
  }

  /** A version below zero matches any version. */
  function PutCode(t: Tree, path: string, version: int): Code {
    if path !in t.nodes then NoNode
    else if version >= 0 && version != t.nodes[path].version then BadVersion
    else Ok
  }

  function DeleteCode(t: Tree, path: string, version: int): Code {
    var code := PutCode(t, path, version);
    if code.Ok? && ChildNames(t, path) != {} then Failed else code
  }

  // ----- serving one request

  datatype Outcome = Outcome(tree: Tree, change: Change, reply: Message, watch: Option<string>)

  /** How the network treats a request: the answer arrives; the request never took effect;
      or it took effect and only the answer was lost. */
  datatype Fate = Answered | Refused | Lost

  function FailedReply(r: Request): Message {
    match r
    case Create(_, _, _, _) => CreateReply(Failed, "")
    case Put(_, _, _) => PutReply(Failed, 0)
    case Get(_, _) => GetReply(Failed, Blank, 0, 0, false)
    case Exists(_, _) => ExistsReply(Failed)
    case Children(_) => ChildrenReply(Failed, [])
    case Delete(_, _) => DeleteReply(Failed)
  }

  function CreatedPath(t: Tree, path: string, sequence: bool): string {
    if sequence then SequenceName(path, t.counter) else path
  }

  function PerformCreate(t: Tree, path: string, value: Value, sequence: bool): Outcome {
    var full := CreatedPath(t, path, sequence);
    var code := CreateCode(t, full);
    if code.Ok? then
      var t1 := WithNode(t, full, value);
      Outcome(if sequence then t1.(counter := t1.counter + 1) else t1,
              Fired(Created, full), CreateReply(Ok, full), None)
    else Outcome(t, Silent, CreateReply(code, ""), None)
  }

  function PerformGet(t: Tree, path: string, watch: bool): Outcome {
    if path in t.nodes then
      var n := t.nodes[path];
      Outcome(t, Silent, GetReply(Ok, n.value, n.version, n.epoch, ChildNames(t, path) != {}),
              if watch then Some(path) else None)
    else Outcome(t, Silent, GetReply(NoNode, Blank, 0, 0, false), None)
  }

  /** `listing` is the order in which the server happens to list the children. */
  function Perform(t: Tree, r: Request, listing: seq<string>): Outcome {
    match r
    case Create(path, value, _, sequence) => PerformCreate(t, path, value, sequence)
    case Put(path, value, version) =>
      var code := PutCode(t, path, version);
      if code.Ok? then
        var t1 := WithValue(t, path, value);
        Outcome(t1, Fired(Changed, path), PutReply(Ok, t1.nodes[path].version), None)
      else Outcome(t, Silent, PutReply(code, 0), None)
    case Get(path, watch) => PerformGet(t, path, watch)
    case Exists(path, watch) =>
      Outcome(t, Silent, ExistsReply(if path in t.nodes then Ok else NoNode), if watch then Some(path) else None)
    case Children(path) =>
      Outcome(t, Silent, if path in t.nodes then ChildrenReply(Ok, listing) else ChildrenReply(NoNode, []), None)
    case Delete(path, version) =>
      var code := DeleteCode(t, path, version);
      if code.Ok? then Outcome(WithoutNode(t, path), Fired(Deleted, path), DeleteReply(Ok), None)
      else Outcome(t, Silent, DeleteReply(code), None)
  }

  ghost predicate ListingFor(t: Tree, r: Request, listing: seq<string>) {
    r.Children? ==> Enumerates(listing, ChildNames(t, r.path))
  }

  function Serve(t: Tree, r: Request, listing: seq<string>, fate: Fate): Outcome {
    match fate
    case Answered => Perform(t, r, listing)
    case Refused => Outcome(t, Silent, FailedReply(r), None)
    case Lost =>
      var o := Perform(t, r, listing);
      Outcome(o.tree, o.change, FailedReply(r), None)
  }

  // ----- links

  function Events(watches: seq<string>, kind: Kind, path: string): seq<Message> {
    if watches == [] then []
    else (if watches[0] == path then [Event(kind, path)] else []) + Events(watches[1..], kind, path)
  }

  function Remaining(watches: seq<string>, path: string): seq<string> {
    if watches == [] then []
    else (if watches[0] == path then [] else [watches[0]]) + Remaining(watches[1..], path)
  }

  /** Every watcher of the changed path gets one event and is forgotten. */
  function Notify(l: Link, c: Change): Link {
    match c
    case Silent => l
    case Fired(kind, path) =>
      l.(inn := l.inn + Events(l.watches, kind, path), watches := Remaining(l.watches, path))
  }

  /** The answer follows the events caused by the request itself. */
  function Answer(l: Link, o: Outcome): Link
    requires l.out != []
  {
    var l1 := Notify(l.(out := l.out[1..]), o.change);
    l1.(inn := l1.inn + [o.reply],
        watches := l1.watches + (if o.watch.Some? then [o.watch.value] else []))
  }

  lemma {:induction false} EventsSpec(watches: seq<string>, kind: Kind, path: string)
    ensures path in watches ==> Event(kind, path) in Events(watches, kind, path)
    ensures path !in watches ==> Events(watches, kind, path) == []
    ensures forall m :: m in Events(watches, kind, path) ==> m == Event(kind, path)
    ensures |Events(watches, kind, path)| == multiset(watches)[path]
  {
    if watches != [] {
      EventsSpec(watches[1..], kind, path);
      assert watches == [watches[0]] + watches[1..];
    }
  }

  lemma {:induction false} RemainingSpec(watches: seq<string>, path: string)
    ensures forall w :: w in Remaining(watches, path) <==> w in watches && w != path
    ensures multiset(Remaining(watches, path)) == multiset(watches)[path := 0]
  {
    if watches != [] {
      RemainingSpec(watches[1..], path);
      assert watches == [watches[0]] + watches[1..];
    }
  }
}
