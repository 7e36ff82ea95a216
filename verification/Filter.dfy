/** The log filter language: filter trees, their verdicts, and their textual form as dynamic
    values. */
module FilterLanguage {
  import Machine
  import opened Wrappers
  import Paths

  datatype Dynamic =
    | Null
    | Bool(b: bool)
    | Int(i: int)
    | Uint(n: nat)
    | Double(d: real)
    | String(s: string)
    | Array(items: seq<Dynamic>)
    | Object(fields: map<string, Dynamic>)

  /** The operand of a comparison; its type decides how the attribute is read. */
  datatype Operand = OfBool(b: bool) | OfInt(i: int) | OfUint(n: nat) | OfDouble(d: real) | OfString(s: string)

  datatype Comparison = Equal | NotEqual | Greater | Less | GreaterOrEqual | LessOrEqual

  datatype Connective = Or | And | Xor

  datatype Filter =
    | Empty
    | Traced
    | Severity(level: int)
    | Exists(name: string)
    | NotExists(name: string)
    | Compare(cmp: Comparison, name: string, operand: Operand)
    | Join(conn: Connective, left: Filter, right: Filter)

  // ----- the textual form

  function Symbol(c: Comparison): string {
    match c
    case Equal => "=="
    case NotEqual => "!="
    case Greater => ">"
    case Less => "<"
    case GreaterOrEqual => ">="
    case LessOrEqual => "<="
  }

  function Word(c: Connective): string {
    match c
    case Or => "||"
    case And => "&&"
    case Xor => "xor"
  }

  function Embed(o: Operand): Dynamic {
    match o
    case OfBool(b) => Bool(b)
    case OfInt(i) => Int(i)
    case OfUint(n) => Uint(n)
    case OfDouble(d) => Double(d)
    case OfString(s) => String(s)
  }

  function Print(f: Filter): Dynamic {
    match f
    case Empty => Array([String("empty")])
    case Traced => Array([String("traced")])
    case Severity(level) => Array([String("severity"), Int(level)])
    case Exists(name) => Array([String("e"), String(name)])
    case NotExists(name) => Array([String("!e"), String(name)])
    case Compare(c, name, o) => Array([String(Symbol(c)), String(name), Embed(o)])
    case Join(c, l, r) => Array([String(Word(c)), Print(l), Print(r)])
  }

  /** A dynamic value reads as an unsigned number when it is one, or a non-negative signed one. */
  function AsUint(r: Dynamic): Option<nat> {
    match r
    case Uint(n) => Some(n)
    case Int(i) => if i >= 0 then Some(i) else None
    case _ => None
  }

  function AsOperand(r: Dynamic): Option<Operand> {
    match r
    case Bool(b) => Some(OfBool(b))
    case Int(i) => Some(OfInt(i))
    case Uint(n) => Some(OfUint(n))
    case Double(d) => Some(OfDouble(d))
    case String(s) => Some(OfString(s))
    case _ => None
  }

  function ParseUnary(op: string, a: Dynamic): Option<Filter> {
    if a.String? then
      if op == "e" then Some(Exists(a.s)) else if op == "!e" then Some(NotExists(a.s)) else None
    else if AsUint(a).Some? && op == "severity" then Some(Severity(Machine.ToInt32(AsUint(a).value)))
    else None
  }

  function AsComparison(op: string): Option<Comparison> {
    if op == "==" then Some(Equal)
    else if op == "!=" then Some(NotEqual)
    else if op == ">" then Some(Greater)
    else if op == "<" then Some(Less)
    else if op == ">=" then Some(GreaterOrEqual)
    else if op == "<=" then Some(LessOrEqual)
    else None
  }

  function AsConnective(op: string): Option<Connective> {
    if op == "||" then Some(Or) else if op == "&&" then Some(And) else if op == "xor" then Some(Xor) else None
  }

  predicate IsStringOp(op: string) {
    AsComparison(op).Some? || op == "e" || op == "!e"
  }

  function ParseComparison(op: string, a: Dynamic, b: Dynamic): Option<Filter> {
    if a.String? && AsComparison(op).Some? && AsOperand(b).Some?
    then Some(Compare(AsComparison(op).value, a.s, AsOperand(b).value))
    else None
  }

  /** Every way in which the original throws is `None`. */
  function Parse(r: Dynamic): Option<Filter> {
    if !r.Array? || |r.items| < 1 || !r.items[0].String? then None
    else
      var op := r.items[0].s;
      if |r.items| == 1 then
        if op == "empty" then Some(Empty) else if op == "traced" then Some(Traced) else None
      else if |r.items| == 2 then ParseUnary(op, r.items[1])
      else if |r.items| == 3 then
        if IsStringOp(op) then ParseComparison(op, r.items[1], r.items[2])
        else if !r.items[1].Array? || !r.items[2].Array? || AsConnective(op).None? then None
        else
          var l := Parse(r.items[1]);
          var q := Parse(r.items[2]);
          if l.Some? && q.Some? then Some(Join(AsConnective(op).value, l.value, q.value)) else None
      else None
  }

  // ----- the verdict

  /** An attribute of a log record. */
  datatype Value = NoValue | BoolValue(b: bool) | IntValue(i: int) | UintValue(n: nat) | DoubleValue(d: real)
                 | StringValue(s: string) | FunctionValue

  datatype Attribute = Attribute(name: string, value: Value)

  type Pack = seq<seq<Attribute>>

  function Truncate(d: real): int {
    if d >= 0.0 then d.Floor else -((-d).Floor)
  }

  function ToInt64(v: Value): Option<int> {
    match v
    case NoValue => Some(0)
    case BoolValue(b) => Some(if b then 1 else 0)
    case IntValue(i) => Some(i)
    case UintValue(n) => if n > 0x7FFF_FFFF_FFFF_FFFF then None else Some(n)
    case DoubleValue(d) => Some(Truncate(d))
    case StringValue(_) => None
    case FunctionValue => None
  }

  function ToDouble(v: Value): Option<real> {
    match v
    case NoValue => Some(0.0)
    case BoolValue(b) => Some(if b then 1.0 else 0.0)
    case IntValue(i) => Some(i as real)
    case UintValue(n) => Some(n as real)
    case DoubleValue(d) => Some(d)
    case StringValue(_) => None
    case FunctionValue => None
  }

  function ToText(v: Value): Option<string> {
    match v
    case NoValue => Some("")
    case StringValue(s) => Some(s)
    case _ => None
  }

  /** The attribute as a value of the operand's type. */
  function Convert(v: Value, o: Operand): Option<Operand> {
    match o
    case OfDouble(_) => (match ToDouble(v) case Some(d) => Some(OfDouble(d)) case None => None)
    case OfString(_) => (match ToText(v) case Some(s) => Some(OfString(s)) case None => None)
    case OfBool(_) => (match ToInt64(v) case Some(i) => Some(OfBool(i != 0)) case None => None)
    case OfInt(_) => (match ToInt64(v) case Some(i) => Some(OfInt(i)) case None => None)
    case OfUint(_) => (match ToInt64(v) case Some(i) => Some(OfUint(i % 0x1_0000_0000_0000_0000)) case None => None)
  }

  /** The original's own `>` on strings: a lexicographical comparison by descending characters,
      in which a proper prefix still comes first. */
  predicate TextGreater(a: string, b: string) {
    if a == "" || b == "" then a == "" && b != ""
    else if a[0] != b[0] then a[0] > b[0]
    else TextGreater(a[1..], b[1..])
  }

  predicate Below(x: Operand, o: Operand) {
    match o
    case OfBool(b) => x.OfBool? && !x.b && b
    case OfInt(i) => x.OfInt? && x.i < i
    case OfUint(n) => x.OfUint? && x.n < n
    case OfDouble(d) => x.OfDouble? && x.d < d
    case OfString(s) => x.OfString? && Paths.Less(x.s, s)
  }

  predicate Above(x: Operand, o: Operand) {
    match o
    case OfString(s) => x.OfString? && TextGreater(x.s, s)
    case _ => Below(o, x)
  }

  predicate Holds(c: Comparison, x: Operand, o: Operand) {
    match c
    case Equal => x == o
    case NotEqual => x != o
    case Greater => Above(x, o)
    case Less => Below(x, o)
    case GreaterOrEqual => !Below(x, o)
    case LessOrEqual => !Above(x, o)
  }

  /** The first attribute with the name, list after list. */
  function Lookup(pack: Pack, name: string): Option<Value> {
    if pack == [] then None
    else match LookupIn(pack[0], name)
      case Some(v) => Some(v)
      case None => Lookup(pack[1..], name)
  }

  function LookupIn(list: seq<Attribute>, name: string): Option<Value> {
    if list == [] then None
    else if list[0].name == name then Some(list[0].value)
    else LookupIn(list[1..], name)
  }

  predicate CompareVerdict(c: Comparison, found: Option<Value>, o: Operand) {
    match found
    case None => c.NotEqual?
    case Some(v) =>
      match Convert(v, o)
      case None => c.NotEqual?
      case Some(x) => Holds(c, x, o)
  }

  /** Whether the record is accepted. `verbose` is the flag of the current trace. */
  predicate Accepts(f: Filter, severity: int, pack: Pack, verbose: bool) {
    match f
    case Empty => true
    case Traced => verbose
    case Severity(level) => severity >= level
    case Exists(name) => Lookup(pack, name).Some?
    case NotExists(name) => Lookup(pack, name).None?
    case Compare(c, name, o) => CompareVerdict(c, Lookup(pack, name), o)
    case Join(Or, l, r) => Accepts(l, severity, pack, verbose) || Accepts(r, severity, pack, verbose)
    case Join(And, l, r) => Accepts(l, severity, pack, verbose) && Accepts(r, severity, pack, verbose)
    case Join(Xor, l, r) => Accepts(l, severity, pack, verbose) != Accepts(r, severity, pack, verbose)
  }

  // ----- the nested search

  lemma {:induction false} LookupInSkips(list: seq<Attribute>, name: string, k: nat)
    requires k <= |list| && forall i :: 0 <= i < k ==> list[i].name != name
    ensures LookupIn(list, name) == LookupIn(list[k..], name)
  {
    if k > 0 {
      LookupInSkips(list[1..], name, k - 1);
      assert list[1..][k - 1..] == list[k..];
    }
  }

  lemma {:induction false} LookupSkips(pack: Pack, name: string, k: nat)
    requires k <= |pack| && forall i :: 0 <= i < k ==> LookupIn(pack[i], name).None?
    ensures Lookup(pack, name) == Lookup(pack[k..], name)
  {
    if k > 0 {
      LookupSkips(pack[1..], name, k - 1);
      assert pack[1..][k - 1..] == pack[k..];
    }
  }

  method FindAttribute(pack: Pack, name: string) returns (found: Option<Value>)
    ensures found == Lookup(pack, name)
  {
    for i := 0 to |pack|
      invariant forall k :: 0 <= k < i ==> LookupIn(pack[k], name).None?
    {
      for j := 0 to |pack[i]|
        invariant forall k :: 0 <= k < j ==> pack[i][k].name != name
      {
        if pack[i][j].name == name {
          LookupInSkips(pack[i], name, j);
          LookupSkips(pack, name, i);
          return Some(pack[i][j].value);
        }
      }
      LookupInSkips(pack[i], name, |pack[i]|);
    }
    LookupSkips(pack, name, |pack|);
    return None;
  }
}

module FilterTheorems {
  import Machine
  import Paths
  import opened Wrappers
  import opened FilterLanguage

  // ----- round trips

  predicate NonNegative(f: Filter) {
    match f
    case Severity(level) => 0 <= level < 0x8000_0000
    case Join(_, l, r) => NonNegative(l) && NonNegative(r)
    case _ => true
  }

  predicate Fits(f: Filter) {
    match f
    case Severity(level) => -0x8000_0000 <= level < 0x8000_0000
    case Join(_, l, r) => Fits(l) && Fits(r)
    case _ => true
  }

  lemma SymbolParses(c: Comparison)
    ensures AsComparison(Symbol(c)) == Some(c)
  {
  }

  lemma WordParses(c: Connective)
    ensures !IsStringOp(Word(c)) && AsConnective(Word(c)) == Some(c)
  {
  }

  lemma ParseJoin(c: Connective, l: Dynamic, r: Dynamic)
    requires l.Array? && r.Array?
    ensures Parse(Array([String(Word(c)), l, r]))
      == if Parse(l).Some? && Parse(r).Some? then Some(Join(c, Parse(l).value, Parse(r).value)) else None
  {
    WordParses(c);
  }

  lemma ParseCompare(c: Comparison, name: string, o: Operand)
    ensures Parse(Print(Compare(c, name, o))) == Some(Compare(c, name, o))
  {
    SymbolParses(c);
  }

  lemma ParseSeverity(level: int)
    requires Fits(Severity(level))
    ensures Parse(Print(Severity(level))) == if NonNegative(Severity(level)) then Some(Severity(level)) else None
  {
    if level >= 0 {
      Machine.WrapFits(level, Machine.TWO_31);
    }
  }

  lemma ParseLeaf(f: Filter)
    requires Fits(f) && !f.Join?
    ensures Parse(Print(f)) == if NonNegative(f) then Some(f) else None
  {
    match f
    case Compare(c, name, o) => ParseCompare(c, name, o);
    case Severity(level) => ParseSeverity(level);
    case _ =>
  }

  /** Printing and reading back gives the same tree exactly when no severity is negative;
      otherwise the printed form is refused. */
  lemma {:induction false} ParsePrint(f: Filter)
    requires Fits(f)
    ensures Parse(Print(f)) == if NonNegative(f) then Some(f) else None
  {
    if f.Join? {
      ParsePrint(f.left);
      ParsePrint(f.right);
      ParseJoin(f.conn, Print(f.left), Print(f.right));
    } else {
      ParseLeaf(f);
    }
  }

  /** Every severity in a representation is below 2^31. */
  predicate Small(r: Dynamic) {
    if !r.Array? then true
    else if |r.items| == 2 then AsUint(r.items[1]).Some? ==> AsUint(r.items[1]).value < 0x8000_0000
    else if |r.items| == 3 && r.items[0].String? && AsConnective(r.items[0].s).Some?
    then Small(r.items[1]) && Small(r.items[2])
    else true
  }

  /** The same representation, where a severity may be written as either kind of number. */
  predicate Same(r: Dynamic, p: Dynamic) {
    if r.Array? && p.Array? && |r.items| == |p.items| == 2
    then
      && r.items[0] == p.items[0]
      && (if AsUint(r.items[1]).Some? then AsUint(r.items[1]) == AsUint(p.items[1]) else r.items[1] == p.items[1])
    else if r.Array? && p.Array? && |r.items| == |p.items| == 3 && r.items[1].Array?
    then r.items[0] == p.items[0] && Same(r.items[1], p.items[1]) && Same(r.items[2], p.items[2])
    else r == p
  }

  /** Whatever is accepted is printed back as it was read, exactly when its severities fit. */
  lemma {:induction false} PrintParse(r: Dynamic)
    requires Parse(r).Some?
    ensures Same(r, Print(Parse(r).value)) <==> Small(r)
    ensures Fits(Parse(r).value)
  {
    var f := Parse(r).value;
    if |r.items| == 3 && !IsStringOp(r.items[0].s) {
      PrintParse(r.items[1]);
      PrintParse(r.items[2]);
    } else if |r.items| == 3 {
      assert r.items == [r.items[0], r.items[1], r.items[2]];
      assert Symbol(f.cmp) == r.items[0].s;
      assert Print(f) == r;
    } else if |r.items| == 1 {
      assert r.items == [r.items[0]];
    }
  }

  /** A filter that is accepted and applied, but whose own representation is refused. */
  lemma LossExample()
    ensures var r := Array([String("severity"), Uint(0xFFFF_FFFF)]);
      Parse(r) == Some(Severity(-1)) && Parse(Print(Severity(-1))) == None
  {
  }

  /** Every severity in a representation is still non-negative once narrowed to an int. */
  predicate Readable(r: Dynamic) {
    if !r.Array? then true
    else if |r.items| == 2 then AsUint(r.items[1]).Some? ==> AsUint(r.items[1]).value % 0x1_0000_0000 < 0x8000_0000
    else if |r.items| == 3 && r.items[0].String? && AsConnective(r.items[0].s).Some?
    then Readable(r.items[1]) && Readable(r.items[2])
    else true
  }

  lemma {:induction false} ReadableIsNonNegative(r: Dynamic)
    requires Parse(r).Some?
    ensures NonNegative(Parse(r).value) <==> Readable(r)
  {
    if |r.items| == 3 && !IsStringOp(r.items[0].s) {
      ReadableIsNonNegative(r.items[1]);
      ReadableIsNonNegative(r.items[2]);
    }
  }

  /** An accepted representation can be stored and read again if and only if it is readable; what
      is read is then the same filter, and otherwise refused. */
  lemma {:induction false} StoredIffReadable(r: Dynamic)
    requires Parse(r).Some?
    ensures Parse(Print(Parse(r).value)) == if Readable(r) then Parse(r) else None
  {
    ReadableIsNonNegative(r);
    PrintParse(r);
    ParsePrint(Parse(r).value);
  }

  /** A stored representation stands for the same verdicts once it is read again, or for none. */
  lemma {:induction false} VerdictsSurvive(r: Dynamic, severity: int, pack: Pack, verbose: bool)
    requires Parse(r).Some?
    ensures var again := Parse(Print(Parse(r).value));
      && (again.Some? <==> Readable(r))
      && (again.Some? ==>
            Accepts(again.value, severity, pack, verbose) == Accepts(Parse(r).value, severity, pack, verbose))
  {
    StoredIffReadable(r);
  }

  // ----- filters with their lifetime

  datatype Disposition = Local | Cluster

  datatype Info = Info(filter: Filter, deadline: nat, id: nat, disposition: Disposition, loggerName: string)

  function PrintInfo(x: Info): Dynamic {
    Object(map["filter" := Print(x.filter), "deadline" := Uint(x.deadline), "id" := Uint(x.id),
               "logger_name" := String(x.loggerName), "disposition" := Uint(if x.disposition.Local? then 0 else 1)])
  }

  function ParseInfo(r: Dynamic): Option<Info> {
    if !r.Object? || !({"filter", "deadline", "id", "logger_name", "disposition"} <= r.fields.Keys) then None
    else
      var f := Parse(r.fields["filter"]);
      var deadline := AsUint(r.fields["deadline"]);
      var id := AsUint(r.fields["id"]);
      var disposition := AsUint(r.fields["disposition"]);
      if f.None? || deadline.None? || id.None? || disposition.None? || disposition.value > 1
         || !r.fields["logger_name"].String? then None
      else Some(Info(f.value, deadline.value, id.value, if disposition.value == 0 then Local else Cluster,
                     r.fields["logger_name"].s))
  }

  lemma InfoRoundTrip(x: Info)
    requires Fits(x.filter)
    ensures ParseInfo(PrintInfo(x)) == if NonNegative(x.filter) then Some(x) else None
  {
    ParsePrint(x.filter);
  }

  // ----- what a verdict depends on

  function Names(f: Filter): set<string> {
    match f
    case Exists(name) => {name}
    case NotExists(name) => {name}
    case Compare(_, name, _) => {name}
    case Join(_, l, r) => Names(l) + Names(r)
    case _ => {}
  }

  /** A verdict depends on a record only through its severity and the first attribute of each
      name the filter mentions. */
  lemma {:induction false} OnlyNamedMatter(f: Filter, severity: int, p: Pack, q: Pack, verbose: bool)
    requires forall n :: n in Names(f) ==> Lookup(p, n) == Lookup(q, n)
    ensures Accepts(f, severity, p, verbose) == Accepts(f, severity, q, verbose)
  {
    match f
    case Exists(name) => assert name in Names(f);
    case NotExists(name) => assert name in Names(f);
    case Compare(_, name, _) => assert name in Names(f);
    case Join(_, l, r) =>
      OnlyNamedMatter(l, severity, p, q, verbose);
      OnlyNamedMatter(r, severity, p, q, verbose);
    case _ =>
  }

  predicate ProperPrefix(a: string, b: string) {
    a < b
  }

  /** The hand-written `>` is the converse of `<` except between a string and its own prefix,
      where both directions are turned round. */
  lemma {:induction false} TextGreaterIs(a: string, b: string)
    ensures TextGreater(a, b) <==>
            if ProperPrefix(a, b) || ProperPrefix(b, a) then Paths.Less(a, b) else Paths.Less(b, a)
  {
    if a != "" && b != "" && a[0] == b[0] {
      TextGreaterIs(a[1..], b[1..]);
      assert (a[1..] < b[1..]) == (a < b) && (b[1..] < a[1..]) == (b < a) by {
        assert a == [a[0]] + a[1..] && b == [b[0]] + b[1..];
      }
    }
  }

  /** "At most" is "less or equal" for every operand but one kind: a string the attribute is a
      proper prefix of, or that is a proper prefix of the attribute. */
  lemma AtMostIff(v: Value, o: Operand)
    requires Convert(v, o).Some?
    ensures var x := Convert(v, o).value;
      (Holds(LessOrEqual, x, o) <==> Holds(Less, x, o) || Holds(Equal, x, o))
      <==> !(o.OfString? && (ProperPrefix(x.s, o.s) || ProperPrefix(o.s, x.s)))
  {
    if o.OfString? {
      var s := Convert(v, o).value.s;
      TextGreaterIs(s, o.s);
      Paths.LessIsTotal(s, o.s);
    }
  }

  // ----- which attribute is found

  /** The attribute at `(i, j)` has the name, and none before it has. */
  ghost predicate IsFirst(pack: Pack, name: string, i: nat, j: nat) {
    && i < |pack| && j < |pack[i]| && pack[i][j].name == name
    && (forall k, l :: 0 <= k < i && 0 <= l < |pack[k]| ==> pack[k][l].name != name)
    && (forall l :: 0 <= l < j ==> pack[i][l].name != name)
  }

  ghost predicate Mentions(list: seq<Attribute>, name: string) {
    exists j :: 0 <= j < |list| && list[j].name == name
  }

  lemma {:induction false} LookupInFinds(list: seq<Attribute>, name: string)
    ensures LookupIn(list, name).Some? <==> Mentions(list, name)
  {
    if list != [] {
      LookupInFinds(list[1..], name);
      assert forall j :: 0 < j < |list| ==> list[1..][j - 1] == list[j];
    }
  }

  lemma {:induction false} LookupFinds(pack: Pack, name: string)
    ensures Lookup(pack, name).Some? <==> exists i :: 0 <= i < |pack| && Mentions(pack[i], name)
  {
    if pack != [] {
      LookupInFinds(pack[0], name);
      LookupFinds(pack[1..], name);
      assert forall i :: 0 < i < |pack| ==> pack[1..][i - 1] == pack[i];
    }
  }

  /** What is found is the value of the first attribute with the name. */
  lemma LookupIsFirst(pack: Pack, name: string, i: nat, j: nat)
    requires IsFirst(pack, name, i, j)
    ensures Lookup(pack, name) == Some(pack[i][j].value)
  {
    forall k | 0 <= k < i
      ensures LookupIn(pack[k], name).None?
    {
      LookupInFinds(pack[k], name);
    }
    LookupSkips(pack, name, i);
    LookupInSkips(pack[i], name, j);
  }

  /** A record passes "exists" if and only if some attribute of it has the name, and "not exists"
      if and only if none has. */
  lemma ExistsIff(name: string, severity: int, pack: Pack, verbose: bool)
    ensures Accepts(Exists(name), severity, pack, verbose) <==>
            exists i, j :: 0 <= i < |pack| && 0 <= j < |pack[i]| && pack[i][j].name == name
    ensures Accepts(NotExists(name), severity, pack, verbose) <==>
            forall i, j :: 0 <= i < |pack| && 0 <= j < |pack[i]| ==> pack[i][j].name != name
  {
    LookupFinds(pack, name);
    if Accepts(Exists(name), severity, pack, verbose) {
      var i :| 0 <= i < |pack| && Mentions(pack[i], name);
      var j :| 0 <= j < |pack[i]| && pack[i][j].name == name;
    } else {
      assert forall i :: 0 <= i < |pack| ==> !Mentions(pack[i], name);
    }
  }

  // ----- the connectives

  /** A filter and further ones, joined from left to right. */
  function Chain(conn: Connective, first: Filter, more: seq<Filter>): Filter
    decreases |more|
  {
    if more == [] then first
    else Join(conn, Chain(conn, first, more[..|more| - 1]), more[|more| - 1])
  }

  function Count(fs: seq<Filter>, severity: int, pack: Pack, verbose: bool): nat {
    if fs == [] then 0
    else Count(fs[..|fs| - 1], severity, pack, verbose)
         + if Accepts(fs[|fs| - 1], severity, pack, verbose) then 1 else 0
  }

  lemma {:induction false} CountBound(fs: seq<Filter>, severity: int, pack: Pack, verbose: bool)
    ensures Count(fs, severity, pack, verbose) <= |fs|
  {
    if fs != [] {
      CountBound(fs[..|fs| - 1], severity, pack, verbose);
    }
  }

  /** A chain asks how many of its filters accept the record: "and" wants all of them, "or" at
      least one, "xor" an odd number. */
  lemma {:induction false} ChainVerdict(conn: Connective, first: Filter, more: seq<Filter>, severity: int, pack: Pack,
                                        verbose: bool)
    ensures var n := Count([first] + more, severity, pack, verbose);
      Accepts(Chain(conn, first, more), severity, pack, verbose) <==>
        match conn
        case And => n == 1 + |more|
        case Or => n >= 1
        case Xor => n % 2 == 1
    decreases |more|
  {
    var all := [first] + more;
    assert all[..|all| - 1] == if more == [] then [] else [first] + more[..|more| - 1];
    if more == [] {
      assert Count([], severity, pack, verbose) == 0;
    } else {
      ChainVerdict(conn, first, more[..|more| - 1], severity, pack, verbose);
      CountBound(all[..|all| - 1], severity, pack, verbose);
    }
  }

  predicate HasXor(f: Filter) {
    f.Join? && (f.conn.Xor? || HasXor(f.left) || HasXor(f.right))
  }

  /** Without "xor", a filter that accepts a record accepts the same one at a higher severity. */
  lemma {:induction false} SeverityIsMonotone(f: Filter, low: int, high: int, pack: Pack, verbose: bool)
    requires !HasXor(f) && low <= high && Accepts(f, low, pack, verbose)
    ensures Accepts(f, high, pack, verbose)
  {
    if f.Join? {
      if Accepts(f.left, low, pack, verbose) {
        SeverityIsMonotone(f.left, low, high, pack, verbose);
      }
      if Accepts(f.right, low, pack, verbose) {
        SeverityIsMonotone(f.right, low, high, pack, verbose);
      }
    }
  }

  /** A severity filter accepts its own level and none below. */
  lemma SeverityIsInclusive(level: int, pack: Pack, verbose: bool)
    ensures Accepts(Severity(level), level, pack, verbose) && !Accepts(Severity(level), level - 1, pack, verbose)
  {
  }

  // ----- the comparisons

  /** The record passes the comparison of the attribute with the operand. */
  predicate Passes(c: Comparison, name: string, o: Operand, severity: int, pack: Pack, verbose: bool) {
    Accepts(Compare(c, name, o), severity, pack, verbose)
  }

  /** The record has the attribute, and it can be read as a value of the operand's type. */
  predicate Comparable(pack: Pack, name: string, o: Operand) {
    Lookup(pack, name).Some? && Convert(Lookup(pack, name).value, o).Some?
  }

  /** "Equal" and "not equal" are complements on every record; the ordered pairs are complements
      exactly on the records that can be compared, and both refuse all others. */
  lemma ComparisonsAreComplements(name: string, o: Operand, severity: int, pack: Pack, verbose: bool)
    ensures Passes(Equal, name, o, severity, pack, verbose) != Passes(NotEqual, name, o, severity, pack, verbose)
    ensures (Passes(Less, name, o, severity, pack, verbose) != Passes(GreaterOrEqual, name, o, severity, pack, verbose))
            <==> Comparable(pack, name, o)
    ensures (Passes(Greater, name, o, severity, pack, verbose) != Passes(LessOrEqual, name, o, severity, pack, verbose))
            <==> Comparable(pack, name, o)
    ensures !Comparable(pack, name, o) ==>
      forall c :: Passes(c, name, o, severity, pack, verbose) <==> c == NotEqual
  {
  }

  /** On a record that can be compared exactly one of "less", "equal" and "greater" accepts,
      unless the attribute and the operand are strings one of which starts with the other. */
  lemma Trichotomy(name: string, o: Operand, severity: int, pack: Pack, verbose: bool)
    requires Comparable(pack, name, o)
    ensures var less := Passes(Less, name, o, severity, pack, verbose);
      var equal := Passes(Equal, name, o, severity, pack, verbose);
      var greater := Passes(Greater, name, o, severity, pack, verbose);
      var x := Convert(Lookup(pack, name).value, o).value;
      && !(less && equal) && !(equal && greater)
      && ((less || equal || greater) && !(less && greater)
          <==> !(o.OfString? && (ProperPrefix(x.s, o.s) || ProperPrefix(o.s, x.s))))
  {
    if o.OfString? {
      var s := Convert(Lookup(pack, name).value, o).value.s;
      TextGreaterIs(s, o.s);
      TextGreaterIs(o.s, s);
      Paths.LessIsTotal(s, o.s);
    }
  }

  /** The attribute value that an operand stands for. */
  function AsValue(o: Operand): Value {
    match o
    case OfBool(b) => BoolValue(b)
    case OfInt(i) => IntValue(i)
    case OfUint(n) => UintValue(n)
    case OfDouble(d) => DoubleValue(d)
    case OfString(s) => StringValue(s)
  }

  /** A record whose attribute is the operand itself equals it, but for unsigned numbers above the
      largest signed one, which no attribute equals that holds the same number. */
  lemma OwnValueIsEqual(name: string, o: Operand, severity: int, pack: Pack, verbose: bool)
    requires Lookup(pack, name) == Some(AsValue(o))
    ensures Passes(Equal, name, o, severity, pack, verbose) <==> !(o.OfUint? && o.n >= 0x8000_0000_0000_0000)
  {
    if o.OfUint? && o.n < 0x8000_0000_0000_0000 {
      assert o.n % 0x1_0000_0000_0000_0000 == o.n;
    }
  }

  predicate IsNumber(v: Value) {
    !v.StringValue? && !v.FunctionValue?
  }

  /** The number an attribute stands for: nothing is zero, and a flag is one or zero. */
  function AsNumber(v: Value): real
    requires IsNumber(v)
  {
    if v.NoValue? || v == BoolValue(false) then 0.0
    else if v == BoolValue(true) then 1.0
    else if v.IntValue? then v.i as real
    else if v.UintValue? then v.n as real
    else v.d
  }

  /** The number a numeric operand stands for. */
  function OperandNumber(o: Operand): real
    requires o.OfInt? || o.OfUint? || o.OfDouble?
  {
    if o.OfInt? then o.i as real else if o.OfUint? then o.n as real else o.d
  }

  /** The attribute's number is a value of the operand's type: any number is a floating one, whole
      ones below 2^63 are signed, and those not below zero are unsigned as well. */
  predicate IsOfType(v: Value, o: Operand)
    requires IsNumber(v)
  {
    || o.OfDouble?
    || (!v.DoubleValue? && AsNumber(v) < 9223372036854775808.0 && (o.OfInt? || (o.OfUint? && AsNumber(v) >= 0.0)))
  }

  /** The comparison of two numbers. */
  predicate Compares(c: Comparison, x: real, y: real) {
    match c
    case Equal => x == y
    case NotEqual => x != y
    case Greater => x > y
    case Less => x < y
    case GreaterOrEqual => x >= y
    case LessOrEqual => x <= y
  }

  lemma FloatsCompare(c: Comparison, d: real, v: Value)
    requires IsNumber(v)
    ensures CompareVerdict(c, Some(v), OfDouble(d)) <==> Compares(c, AsNumber(v), d)
  {
  }

  lemma SignedCompare(c: Comparison, k: int, v: Value)
    requires IsNumber(v) && !v.DoubleValue? && AsNumber(v) < 9223372036854775808.0
    ensures CompareVerdict(c, Some(v), OfInt(k)) <==> Compares(c, AsNumber(v), k as real)
  {
    assert AsNumber(v) == ToInt64(v).value as real;
  }

  lemma UnsignedCompare(c: Comparison, n: nat, v: Value)
    requires IsNumber(v) && !v.DoubleValue? && 0.0 <= AsNumber(v) < 9223372036854775808.0
    ensures CompareVerdict(c, Some(v), OfUint(n)) <==> Compares(c, AsNumber(v), n as real)
  {
    var i := ToInt64(v).value;
    assert AsNumber(v) == i as real && 0 <= i < 0x1_0000_0000_0000_0000;
    assert Convert(v, OfUint(n)) == Some(OfUint(i));
  }

  /** An attribute whose number is a value of the operand's type is compared as a number. */
  lemma NumbersCompareAsNumbers(c: Comparison, name: string, o: Operand, v: Value, severity: int, pack: Pack,
                                verbose: bool)
    requires Lookup(pack, name) == Some(v) && IsNumber(v) && IsOfType(v, o)
    ensures Passes(c, name, o, severity, pack, verbose) <==> Compares(c, AsNumber(v), OperandNumber(o))
  {
    match o
    case OfDouble(d) => FloatsCompare(c, d, v);
    case OfInt(k) => SignedCompare(c, k, v);
    case OfUint(n) => UnsignedCompare(c, n, v);
  }

  lemma TruncateSpec(d: real)
    ensures d >= 0.0 ==> 0.0 <= Truncate(d) as real <= d < Truncate(d) as real + 1.0
    ensures d <= 0.0 ==> Truncate(d) as real - 1.0 < d <= Truncate(d) as real <= 0.0
  {
  }

  /** A floating attribute is cut towards zero before it is compared with a signed number: it
      equals that number exactly if it lies between it and the next one away from zero. */
  lemma FloatsAreCutTowardsZero(name: string, k: int, d: real, severity: int, pack: Pack, verbose: bool)
    requires Lookup(pack, name) == Some(DoubleValue(d))
    ensures Passes(Equal, name, OfInt(k), severity, pack, verbose) <==>
            (if k > 0 then k as real <= d < k as real + 1.0
             else if k < 0 then k as real - 1.0 < d <= k as real
             else -1.0 < d < 1.0)
  {
    TruncateSpec(d);
  }

  /** A flag is compared with whether the attribute, cut towards zero, is other than zero; false
      comes before true. */
  lemma FlagsCompareWithNonZero(name: string, b: bool, v: Value, severity: int, pack: Pack, verbose: bool)
    requires Lookup(pack, name) == Some(v) && IsNumber(v) && !(v.UintValue? && v.n > 0x7FFF_FFFF_FFFF_FFFF)
    ensures var nonZero := if v.DoubleValue? then v.d <= -1.0 || v.d >= 1.0 else AsNumber(v) != 0.0;
      && (Passes(Equal, name, OfBool(b), severity, pack, verbose) <==> nonZero == b)
      && (Passes(Less, name, OfBool(b), severity, pack, verbose) <==> !nonZero && b)
      && (Passes(Greater, name, OfBool(b), severity, pack, verbose) <==> nonZero && !b)
  {
    if v.DoubleValue? {
      TruncateSpec(v.d);
    }
  }

  /** Text is compared with text only; an attribute without a value is the empty text. */
  lemma TextComparesWithText(name: string, s: string, v: Value, severity: int, pack: Pack, verbose: bool)
    requires Lookup(pack, name) == Some(v)
    ensures var text := if v.StringValue? then v.s else "";
      && (Passes(Equal, name, OfString(s), severity, pack, verbose) <==> (v.StringValue? || v.NoValue?) && text == s)
      && (Passes(Less, name, OfString(s), severity, pack, verbose) <==>
            (v.StringValue? || v.NoValue?) && Paths.Less(text, s))
  {
  }

  /** Only the verbose flag of the trace decides the traced filter. */
  lemma TracedIsVerbose(severity: int, pack: Pack)
    ensures Accepts(Traced, severity, pack, true) && !Accepts(Traced, severity, pack, false)
  {
  }
}
