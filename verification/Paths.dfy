/** Node names and paths of the coordination service: string order, zero-padded
    sequence numbers, and the helpers that cut a path into parents and names. */
module Paths {
  import opened Wrappers

  /** Lexicographic order on strings, as `std::string` compares them. */
  predicate Less(a: string, b: string) {
    if b == [] then false
    else if a == [] then true
    else if a[0] != b[0] then a[0] < b[0]
    else Less(a[1..], b[1..])
  }

  lemma {:induction false} LessIsTotal(a: string, b: string)
    ensures a != b ==> Less(a, b) || Less(b, a)
    ensures !(Less(a, b) && Less(b, a))
    ensures Less(a, b) ==> a != b
  {
    if a != [] && b != [] && a[0] == b[0] {
      LessIsTotal(a[1..], b[1..]);
      assert a == [a[0]] + a[1..] && b == [b[0]] + b[1..];
    }
  }

  lemma {:induction false} LessIsTransitive(a: string, b: string, c: string)
    requires Less(a, b) && Less(b, c)
    ensures Less(a, c)
  {
    if a != [] && a[0] == b[0] && b[0] == c[0] {
      LessIsTransitive(a[1..], b[1..], c[1..]);
    }
  }

  lemma {:induction false} LessUnderPrefix(p: string, a: string, b: string)
    ensures Less(p + a, p + b) == Less(a, b)
  {
    if p == [] {
      assert p + a == a && p + b == b;
    } else {
      assert (p + a)[1..] == p[1..] + a && (p + b)[1..] == p[1..] + b;
      LessUnderPrefix(p[1..], a, b);
    }
  }

  lemma {:induction false} LessExtends(a: string, b: string, x: string, y: string)
    requires |a| == |b| && Less(a, b)
    ensures Less(a + x, b + y)
  {
    assert (a + x)[0] == a[0] && (b + y)[0] == b[0];
    if a[0] == b[0] {
      assert (a + x)[1..] == a[1..] + x && (b + y)[1..] == b[1..] + y;
      LessExtends(a[1..], b[1..], x, y);
    }
  }

  // ----- sequence numbers

  function Digit(d: nat): char
    requires d < 10
  {
    ('0' as int + d) as char
  }

  function Pow10(w: nat): nat {
    if w == 0 then 1 else 10 * Pow10(w - 1)
  }

  /** The last `width` decimal digits of `n`, zero padded on the left. */
  function Pad(n: nat, width: nat): (s: string)
    ensures |s| == width
    ensures forall i :: 0 <= i < |s| ==> '0' <= s[i] <= '9'
  {
    if width == 0 then [] else Pad(n / 10, width - 1) + [Digit(n % 10)]
  }

  const SEQUENCE_DIGITS := 10

  /** ZooKeeper's sequence counter is a signed 32-bit number. */
  const MAX_SEQUENCE := 2147483647

  lemma {:induction false} PadOrder(a: nat, b: nat, width: nat)
    requires a < b < Pow10(width)
    ensures Less(Pad(a, width), Pad(b, width))
  {
    var pa, pb := Pad(a / 10, width - 1), Pad(b / 10, width - 1);
    if a / 10 < b / 10 {
      PadOrder(a / 10, b / 10, width - 1);
      LessExtends(pa, pb, [Digit(a % 10)], [Digit(b % 10)]);
    } else {
      assert a / 10 == b / 10 && a % 10 < b % 10;
      LessUnderPrefix(pa, [Digit(a % 10)], [Digit(b % 10)]);
    }
  }

  lemma MaxSequenceFits()
    ensures MAX_SEQUENCE < Pow10(SEQUENCE_DIGITS)
  {
    assert Pow10(2) == 100;
    assert Pow10(4) == 10000;
    assert Pow10(6) == 1000000;
    assert Pow10(8) == 100000000;
    assert Pow10(10) == 10000000000;
  }

  /** The name the server gives to the `n`-th sequence node with this prefix. */
  function SequenceName(prefix: string, n: nat): string {
    prefix + Pad(n, SEQUENCE_DIGITS)
  }

  /** Lexicographic order of zero-padded names is numeric order: what lets a client sort
      the listing as plain strings. */
  lemma SequenceNameOrder(prefix: string, a: nat, b: nat)
    requires a <= MAX_SEQUENCE && b <= MAX_SEQUENCE
    ensures Less(SequenceName(prefix, a), SequenceName(prefix, b)) <==> a < b
    ensures SequenceName(prefix, a) == SequenceName(prefix, b) <==> a == b
  {
    MaxSequenceFits();
    LessUnderPrefix(prefix, Pad(a, SEQUENCE_DIGITS), Pad(b, SEQUENCE_DIGITS));
    LessUnderPrefix(prefix, Pad(b, SEQUENCE_DIGITS), Pad(a, SEQUENCE_DIGITS));
    LessIsTotal(SequenceName(prefix, a), SequenceName(prefix, b));
    if a < b {
      PadOrder(a, b, SEQUENCE_DIGITS);
    } else if b < a {
      PadOrder(b, a, SEQUENCE_DIGITS);
    }
  }

  predicate IsDigit(c: char) {
    '0' <= c <= '9'
  }

  function TrailingDigits(name: string): nat {
    if name == [] || !IsDigit(name[|name| - 1]) then 0
    else 1 + TrailingDigits(name[..|name| - 1])
  }

  /** Whether a child looks like a sequence node: exactly ten digits at its end. */
  predicate IsValidSequenceNode(name: string) {
    TrailingDigits(name) == SEQUENCE_DIGITS
  }

  lemma TrailingDigitsSnoc(x: string, c: char)
    requires IsDigit(c)
    ensures TrailingDigits(x + [c]) == 1 + TrailingDigits(x)
  {
    assert (x + [c])[..|x|] == x;
  }

  lemma {:induction false} TrailingDigitsOfPad(x: string, n: nat, width: nat)
    requires x == [] || !IsDigit(x[|x| - 1])
    ensures TrailingDigits(x + Pad(n, width)) == width
  {
    if width == 0 {
      assert x + Pad(n, width) == x;
    } else {
      TrailingDigitsOfPad(x, n / 10, width - 1);
      TrailingDigitsSnoc(x + Pad(n / 10, width - 1), Digit(n % 10));
      assert x + Pad(n, width) == x + Pad(n / 10, width - 1) + [Digit(n % 10)];
    }
  }

  lemma {:induction false} TrailingDigitsAre(name: string, k: nat)
    ensures TrailingDigits(name) >= k <==> k <= |name| && forall i :: |name| - k <= i < |name| ==> IsDigit(name[i])
    decreases |name|
  {
    if k > 0 && name != [] && IsDigit(name[|name| - 1]) {
      TrailingDigitsAre(name[..|name| - 1], k - 1);
    }
  }

  /** The last ten characters are digits, and the one before them, if any, is not. */
  lemma SequenceNodeIff(name: string)
    ensures IsValidSequenceNode(name) <==>
      && |name| >= 10
      && (forall i :: |name| - 10 <= i < |name| ==> IsDigit(name[i]))
      && (|name| > 10 ==> !IsDigit(name[|name| - 11]))
  {
    TrailingDigitsAre(name, 10);
    TrailingDigitsAre(name, 11);
  }

  // ----- paths

  predicate NoSlash(s: string) {
    '/' !in s
  }

  /** What the connection accepts as a path at all. */
  predicate ValidPath(path: string) {
    path != "" && path[0] == '/'
  }

  function LastSlash(path: string): (i: int)
    ensures -1 <= i < |path|
    ensures i >= 0 ==> path[i] == '/'
    ensures forall j :: i < j < |path| ==> path[j] != '/'
  {
    if path == [] then -1
    else if path[|path| - 1] == '/' then |path| - 1
    else LastSlash(path[..|path| - 1])
  }

  function Cut(path: string, depth: nat): Option<string>
    decreases depth
  {
    if depth == 0 then Some(path)
    else
      var i := LastSlash(path);
      if i < 0 then None else Cut(path[..i], depth - 1)
  }

  /** The `depth`-th parent of a path; `None` where the original throws. */
  function PathParent(path: string, depth: nat): Option<string> {
    if path == "" then None else Cut(path, depth)
  }

  function Slashes(s: string): nat {
    if s == [] then 0
    else (if s[|s| - 1] == '/' then 1 else 0) + Slashes(s[..|s| - 1])
  }

  lemma {:induction false} SlashesSplit(a: string, b: string)
    ensures Slashes(a + b) == Slashes(a) + Slashes(b)
  {
    if b == [] {
      assert a + b == a;
    } else {
      assert (a + b)[..|a + b| - 1] == a + b[..|b| - 1];
      SlashesSplit(a, b[..|b| - 1]);
    }
  }

  lemma {:induction false} NoSlashCounts(s: string)
    ensures NoSlash(s) <==> Slashes(s) == 0
  {
    if s != [] {
      NoSlashCounts(s[..|s| - 1]);
      assert s == s[..|s| - 1] + [s[|s| - 1]];
    }
  }

  lemma LastSlashSplits(path: string, from: nat)
    requires from <= LastSlash(path)
    ensures Slashes(path[from..]) == Slashes(path[..LastSlash(path)][from..]) + 1
  {
    var i := LastSlash(path);
    var tail := path[i + 1..];
    assert path[from..] == path[..i][from..] + ("/" + tail);
    SlashesSplit(path[..i][from..], "/" + tail);
    SlashesSplit("/", tail);
    NoSlashCounts(tail);
    assert Slashes("/") == 1;
  }

  lemma {:induction false} CutIsNone(path: string, depth: nat)
    ensures Cut(path, depth).None? <==> Slashes(path) < depth
    decreases depth
  {
    if depth > 0 {
      var i := LastSlash(path);
      if i < 0 {
        NoSlashCounts(path);
      } else {
        LastSlashSplits(path, 0);
        assert path[0..] == path && path[..i][0..] == path[..i];
        CutIsNone(path[..i], depth - 1);
      }
    }
  }

  /** Asking for a parent throws exactly on an empty path and beyond the first slash. */
  lemma PathParentThrows(path: string, depth: nat)
    ensures PathParent(path, depth).None? <==> path == "" || Slashes(path) < depth
  {
    CutIsNone(path, depth);
  }

  /** The removed tail starts at a slash and holds exactly `depth` of them: the meaning of
      "the depth-th slash from the end". */
  lemma {:induction false} CutAtNthSlash(path: string, depth: nat, r: string)
    requires depth > 0
    ensures Cut(path, depth) == Some(r) <==>
            r < path && path[|r|] == '/' && Slashes(path[|r|..]) == depth
    decreases depth
  {
    var i := LastSlash(path);
    if i >= 0 {
      var head := path[..i];
      if r <= head {
        LastSlashSplits(path, |r|);
        NoSlashCounts(head[|r|..]);
      }
      if depth == 1 {
        assert r == head ==> head[|r|..] == "";
        assert r < head ==> head[|r|] == head[|r|..][0];
      } else {
        CutAtNthSlash(head, depth - 1, r);
      }
    }
  }

  /** Parents compose: the source walks up one level at a time and back down. */
  lemma {:induction false} ParentOfParent(path: string, depth: nat)
    requires Cut(path, depth).Some?
    ensures Cut(path, depth + 1) == Cut(Cut(path, depth).value, 1)
    decreases depth
  {
    if depth > 0 {
      ParentOfParent(path[..LastSlash(path)], depth - 1);
    }
  }

  /** The `d`-th parent. */
  function Anc(path: string, d: nat): string
    requires Cut(path, d).Some?
  {
    Cut(path, d).value
  }

  lemma {:induction false} CutBelow(path: string, d: nat, e: nat)
    requires d <= e && Cut(path, e).Some?
    ensures Cut(path, d).Some? && (d < e ==> |Anc(path, e)| < |Anc(path, d)|)
    ensures Anc(path, d) != "" || d == e
    decreases e - d
  {
    if d < e {
      CutIsNone(path, d);
      CutIsNone(path, e);
      CutBelow(path, d + 1, e);
      ParentOfParent(path, d);
    }
  }

  /** Cutting at every slash leaves nothing. */
  lemma TopLevel(prefix: string)
    requires ValidPath(prefix)
    ensures Slashes(prefix) > 0 && Cut(prefix, Slashes(prefix)) == Some("")
  {
    assert prefix == "/" + prefix[1..];
    SlashesSplit("/", prefix[1..]);
    assert Slashes("/") == 1;
    assert prefix[0..] == prefix;
    CutAtNthSlash(prefix, Slashes(prefix), "");
  }

  /** The parent of level `d` is level `d + 1`, the root above the first level. */
  lemma LevelFits(prefix: string, d: nat)
    requires ValidPath(prefix) && d < Slashes(prefix)
    ensures Cut(prefix, d).Some? && Cut(prefix, d + 1).Some?
    ensures PathParent(Anc(prefix, d), 1) == Cut(prefix, d + 1)
    ensures d + 1 == Slashes(prefix) ==> Cut(prefix, d + 1) == Some("")
  {
    CutIsNone(prefix, d);
    CutIsNone(prefix, d + 1);
    ParentOfParent(prefix, d);
    CutBelow(prefix, d, d + 1);
    TopLevel(prefix);
  }

  function Join(folder: string, name: string): string {
    folder + "/" + name
  }

  lemma ParentOfJoin(folder: string, name: string)
    requires NoSlash(name)
    ensures LastSlash(Join(folder, name)) == |folder|
    ensures PathParent(Join(folder, name), 1) == Some(folder)
  {
    var p := Join(folder, name);
    assert p[|folder|] == '/';
    assert forall j :: |folder| < j < |p| ==> p[j] == name[j - |folder| - 1];
    assert p[..|folder|] == folder;
  }

  lemma JoinInjective(folder: string, a: string, b: string)
    ensures Join(folder, a) == Join(folder, b) <==> a == b
  {
    if Join(folder, a) == Join(folder, b) {
      assert Join(folder, a)[|folder| + 1..] == a;
      assert Join(folder, b)[|folder| + 1..] == b;
    }
  }

  /** The last component of a path; `None` where the original throws. */
  function NodeName(path: string): Option<string> {
    var i := LastSlash(path);
    if i < 0 || i == |path| - 1 then None else Some(path[i + 1..])
  }

  lemma NodeNameOfJoin(folder: string, name: string)
    requires NoSlash(name) && name != ""
    ensures NodeName(Join(folder, name)) == Some(name)
  {
    ParentOfJoin(folder, name);
    assert Join(folder, name)[|folder| + 1..] == name;
  }
}
