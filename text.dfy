/** JavaScript string operations the bot relies on, with the semantics of
    String.prototype.trim, split, join, startsWith, endsWith, includes and the
    line handling `content.split('\n').filter(line => line.trim() !== '')`. */
module Text {

  datatype Option<T> = None | Some(value: T)

  /** The characters String.prototype.trim removes (WhiteSpace and LineTerminator). */
  predicate IsSpace(c: char) {
    c == ' ' || c == '\t' || c == '\n' || c == '\r' || c == '\U{B}' || c == '\U{C}'
    || c == '\U{A0}' || c == '\U{FEFF}' || c == '\U{1680}' || ('\U{2000}' <= c <= '\U{200A}')
    || c == '\U{2028}' || c == '\U{2029}' || c == '\U{202F}' || c == '\U{205F}' || c == '\U{3000}'
  }

  function TrimStart(s: string): (r: string)
    ensures |r| <= |s| && r == s[|s| - |r|..]
    ensures r == [] || !IsSpace(r[0])
  {
    if |s| > 0 && IsSpace(s[0]) then TrimStart(s[1..]) else s
  }

  function TrimEnd(s: string): (r: string)
    ensures |r| <= |s| && r == s[..|r|]
    ensures r == [] || !IsSpace(r[|r| - 1])
  {
    if |s| > 0 && IsSpace(s[|s| - 1]) then TrimEnd(s[..|s| - 1]) else s
  }

  /** `s.trim()` */
  function Trim(s: string): string {
    TrimEnd(TrimStart(s))
  }

  /** A string that trim leaves as it is: empty, or neither end is white space. */
  predicate IsTrimmed(s: string) {
    s == [] || (!IsSpace(s[0]) && !IsSpace(s[|s| - 1]))
  }

  /** `line.trim() !== ''` */
  predicate IsBlank(s: string) {
    Trim(s) == ""
  }

  /** What trim returns has no white space at either end, so trimming twice
      is trimming once. */
  lemma TrimSpec(s: string)
    ensures IsTrimmed(Trim(s))
    ensures Trim(Trim(s)) == Trim(s)
  {
    var a := TrimStart(s);
    var r := TrimEnd(a);
    if r != [] {
      assert r[0] == a[0];
    }
    TrimOfTrimmed(r);
  }

  lemma TrimOfTrimmed(s: string)
    requires IsTrimmed(s)
    ensures Trim(s) == s
  {
  }

  /** Characters of Trim(s) all come from s. */
  lemma TrimChars(s: string, c: char)
    requires c !in s
    ensures c !in Trim(s)
  {
  }

  function StartsWith(s: string, prefix: string): bool {
    |prefix| <= |s| && s[..|prefix|] == prefix
  }

  function EndsWith(s: string, suffix: string): bool {
    |suffix| <= |s| && s[|s| - |suffix|..] == suffix
  }

  /** `s.includes(sub)` */
  function Contains(s: string, sub: string): bool
    decreases |s|
  {
    if |s| < |sub| then false
    else if s[..|sub|] == sub then true
    else Contains(s[1..], sub)
  }

  /** `s.split(sep)` for a non-empty separator: cut at each leftmost,
      non-overlapping occurrence of `sep`. */
  function Split(s: string, sep: string): (r: seq<string>)
    requires |sep| > 0
    ensures |r| >= 1
    decreases |s|
  {
    if |s| < |sep| then [s]
    else if s[..|sep|] == sep then [""] + Split(s[|sep|..], sep)
    else
      var rest := Split(s[1..], sep);
      [[s[0]] + rest[0]] + rest[1..]
  }

  /** A string holding `sub` between two others contains it. */
  lemma {:induction false} ContainsMiddle(a: string, sub: string, b: string)
    ensures Contains(a + sub + b, sub)
    decreases |a|
  {
    var s := a + sub + b;
    if a == [] {
      assert s[..|sub|] == sub;
    } else if s[..|sub|] != sub {
      assert s[1..] == a[1..] + sub + b;
      ContainsMiddle(a[1..], sub, b);
    }
  }

  /** Whatever a string contains, its characters occur in the string. */
  lemma {:induction false} ContainsChar(s: string, sub: string, c: char)
    requires Contains(s, sub) && c in sub
    ensures c in s
    decreases |s|
  {
    if s[..|sub|] != sub {
      ContainsChar(s[1..], sub, c);
    } else {
      assert c in s[..|sub|];
    }
  }

  /** A string without the middle character of a spaced separator such as
      " - " is not cut by it. */
  lemma {:induction false} SplitSpacedNone(x: string, m: char)
    requires m != ' ' && m !in x
    ensures Split(x, [' ', m, ' ']) == [x]
    decreases |x|
  {
    if |x| >= 3 {
      assert x[..3] != [' ', m, ' '] by { assert x[1] != m; }
      SplitSpacedNone(x[1..], m);
      assert [x[0]] + x[1..] == x;
    }
  }

  /** The first piece of `x + " - " + y` cut at " - " is `x`, when `x` has no '-'. */
  lemma {:induction false} SplitSpaced(x: string, m: char, y: string)
    requires m != ' ' && m !in x
    ensures Split(x + [' ', m, ' '] + y, [' ', m, ' ']) == [x] + Split(y, [' ', m, ' '])
    decreases |x|
  {
    var sep := [' ', m, ' '];
    var s := x + sep + y;
    if x == [] {
      assert s[..3] == sep && s[3..] == y;
    } else {
      assert s[..3] != sep by { assert s[1] != m; }
      assert s[1..] == x[1..] + sep + y;
      SplitSpaced(x[1..], m, y);
      assert [x[0]] + x[1..] == x;
    }
  }

  /** `parts.join(sep)` */
  function Join(parts: seq<string>, sep: string): string {
    if |parts| == 0 then ""
    else if |parts| == 1 then parts[0]
    else parts[0] + sep + Join(parts[1..], sep)
  }

  /** Splitting on a one-character separator distributes over a separator
      placed between two strings. */
  lemma {:induction false} SplitConcat(x: string, c: char, y: string)
    ensures Split(x + [c] + y, [c]) == Split(x, [c]) + Split(y, [c])
    decreases |x|
  {
    var s := x + [c] + y;
    if x == [] {
      assert s[..1] == [c];
      assert s[1..] == y;
    } else if x[0] == c {
      assert s[..1] == [c];
      assert s[1..] == x[1..] + [c] + y;
      SplitConcat(x[1..], c, y);
    } else {
      assert s[..1] == [x[0]] && x[..1] == [x[0]];
      assert s[1..] == x[1..] + [c] + y;
      SplitConcat(x[1..], c, y);
    }
  }

  lemma {:induction false} SplitNoSeparator(p: string, c: char)
    requires c !in p
    ensures Split(p, [c]) == [p]
    decreases |p|
  {
    if |p| >= 1 {
      assert p[..1] == [p[0]] && p[0] != c;
      SplitNoSeparator(p[1..], c);
      assert [p[0]] + p[1..] == p;
    }
  }

  /** Splitting a join recovers the parts when no part contains the separator. */
  lemma {:induction false} SplitJoin(parts: seq<string>, c: char)
    requires |parts| >= 1
    requires forall k :: 0 <= k < |parts| ==> c !in parts[k]
    ensures Split(Join(parts, [c]), [c]) == parts
    decreases |parts|
  {
    if |parts| == 1 {
      SplitNoSeparator(parts[0], c);
    } else {
      SplitConcat(parts[0], c, Join(parts[1..], [c]));
      SplitNoSeparator(parts[0], c);
      SplitJoin(parts[1..], c);
    }
  }

  /** The pieces of a split never contain a one-character separator. */
  lemma {:induction false} SplitPiecesFree(s: string, c: char)
    ensures forall k :: 0 <= k < |Split(s, [c])| ==> c !in Split(s, [c])[k]
    decreases |s|
  {
    if |s| >= 1 {
      SplitPiecesFree(s[1..], c);
    }
  }

  /** `xs.filter(line => line.trim() !== '')` */
  function NonBlank(xs: seq<string>): (r: seq<string>)
    ensures |r| <= |xs|
    ensures forall k :: 0 <= k < |r| ==> !IsBlank(r[k])
  {
    if xs == [] then []
    else if Trim(xs[0]) == "" then NonBlank(xs[1..])
    else [xs[0]] + NonBlank(xs[1..])
  }

  lemma {:induction false} NonBlankAppend(a: seq<string>, b: seq<string>)
    ensures NonBlank(a + b) == NonBlank(a) + NonBlank(b)
    decreases |a|
  {
    if a != [] {
      assert (a + b)[0] == a[0] && (a + b)[1..] == a[1..] + b;
      NonBlankAppend(a[1..], b);
      if Trim(a[0]) == "" {
        assert NonBlank(a + b) == NonBlank(a[1..] + b);
      } else {
        assert NonBlank(a + b) == [a[0]] + NonBlank(a[1..] + b);
      }
    } else {
      assert a + b == b;
    }
  }

  lemma {:induction false} NonBlankKeeps(xs: seq<string>)
    requires forall k :: 0 <= k < |xs| ==> !IsBlank(xs[k])
    ensures NonBlank(xs) == xs
    decreases |xs|
  {
    if xs != [] {
      NonBlankKeeps(xs[1..]);
    }
  }

  /** The non-blank lines of a file: `content.split('\n').filter(l => l.trim() !== '')`. */
  function Lines(content: string): seq<string> {
    NonBlank(Split(content, "\n"))
  }

  /** A line-mode stock unit: a non-empty trimmed string without a line break,
      which is what `line.trim()` of a non-blank line is. */
  predicate IsUnitText(s: string) {
    s != "" && IsTrimmed(s) && '\n' !in s
  }

  lemma UnitTextNotBlank(s: string)
    requires IsUnitText(s)
    ensures !IsBlank(s)
  {
    TrimOfTrimmed(s);
  }

  /** `items.join('\n') + (joined ? '\n' : '')`: how every line-mode write-back
      renders its units. */
  function JoinLines(items: seq<string>): (r: string)
    ensures items == [] ==> r == ""
  {
    var j := Join(items, "\n");
    j + (if j == "" then "" else "\n")
  }

  lemma {:induction false} JoinNonEmpty(items: seq<string>, sep: string)
    requires |items| >= 1 && items[0] != ""
    ensures Join(items, sep) != ""
  {
    if |items| > 1 {
      assert Join(items, sep)[..|items[0]|] == items[0];
    }
  }

  /** Reading back what a line-mode write-back produced gives exactly the
      written units, in order. */
  lemma LinesOfJoinLines(items: seq<string>)
    requires forall k :: 0 <= k < |items| ==> IsUnitText(items[k])
    ensures Lines(JoinLines(items)) == items
    ensures items != [] ==> EndsWith(JoinLines(items), "\n")
  {
    NoLinesInEmpty();
    if items != [] {
      JoinNonEmpty(items, "\n");
      var j, joined := Join(items, "\n"), JoinLines(items);
      assert joined == j + ['\n'] + "";
      SplitLinesOfJoin(items);
      assert Lines(joined) == NonBlank(items + [""]);
      NonBlankAppend(items, [""]);
      UnitsNotBlank(items);
      NonBlankKeeps(items);
      assert Lines(joined) == items + [];
      assert joined[|joined| - 1..] == "\n";
    }
  }

  /** The empty file has no lines: its one piece is blank. */
  lemma NoLinesInEmpty()
    ensures Split("", "\n") == [""] && NonBlank([""]) == [] && Lines("") == []
  {
    assert Trim("") == "";
    assert [""][1..] == [];
  }

  lemma UnitsNotBlank(items: seq<string>)
    requires forall k :: 0 <= k < |items| ==> IsUnitText(items[k])
    ensures forall k :: 0 <= k < |items| ==> !IsBlank(items[k])
  {
    forall k | 0 <= k < |items| ensures !IsBlank(items[k]) {
      UnitTextNotBlank(items[k]);
    }
  }

  lemma SplitLinesOfJoin(items: seq<string>)
    requires |items| >= 1
    requires forall k :: 0 <= k < |items| ==> IsUnitText(items[k])
    ensures Split(Join(items, "\n") + ['\n'] + "", "\n") == items + [""]
  {
    SplitConcat(Join(items, "\n"), '\n', "");
    SplitJoin(items, '\n');
    assert Split("", "\n") == [""];
  }

  /** The units a line-mode file holds: the trimmed non-blank lines. */
  function TrimAll(xs: seq<string>): (r: seq<string>)
    ensures |r| == |xs|
    ensures forall k :: 0 <= k < |xs| ==> r[k] == Trim(xs[k])
  {
    if xs == [] then [] else [Trim(xs[0])] + TrimAll(xs[1..])
  }

  /** Every unit loaded from a file is well formed. */
  lemma LoadedUnitsWellFormed(content: string)
    ensures forall k :: 0 <= k < |Lines(content)| ==> IsUnitText(TrimAll(Lines(content))[k])
  {
    var pieces := Split(content, "\n");
    SplitPiecesFree(content, '\n');
    NonBlankFrom(pieces, '\n');
    forall k | 0 <= k < |Lines(content)| ensures IsUnitText(TrimAll(Lines(content))[k]) {
      var line := Lines(content)[k];
      TrimSpec(line);
      TrimChars(line, '\n');
    }
  }

  lemma {:induction false} NonBlankFrom(xs: seq<string>, c: char)
    requires forall k :: 0 <= k < |xs| ==> c !in xs[k]
    ensures forall k :: 0 <= k < |NonBlank(xs)| ==> c !in NonBlank(xs)[k]
    decreases |xs|
  {
    if xs != [] {
      NonBlankFrom(xs[1..], c);
    }
  }

  /** Well-formed units survive a write-back and a reload unchanged. */
  lemma ReloadJoinLines(items: seq<string>)
    requires forall k :: 0 <= k < |items| ==> IsUnitText(items[k])
    ensures TrimAll(Lines(JoinLines(items))) == items
  {
    LinesOfJoinLines(items);
    forall k | 0 <= k < |items| ensures Trim(items[k]) == items[k] {
      TrimOfTrimmed(items[k]);
    }
  }

  /** `toLowerCase` / `toUpperCase` on ASCII letters (SQLite's LOWER is ASCII-only). */
  function LowerChar(c: char): char {
    if 'A' <= c <= 'Z' then (c as int + 32) as char else c
  }

  function UpperChar(c: char): char {
    if 'a' <= c <= 'z' then (c as int - 32) as char else c
  }

  function Lower(s: string): (r: string)
    ensures |r| == |s| && forall k :: 0 <= k < |s| ==> r[k] == LowerChar(s[k])
  {
    if s == [] then [] else [LowerChar(s[0])] + Lower(s[1..])
  }

  function Upper(s: string): (r: string)
    ensures |r| == |s| && forall k :: 0 <= k < |s| ==> r[k] == UpperChar(s[k])
  {
    if s == [] then [] else [UpperChar(s[0])] + Upper(s[1..])
  }

  predicate IsDigit(c: char) {
    '0' <= c <= '9'
  }

  /** Decimal rendering of a natural number, as template literals print it. */
  function NatToString(n: nat): (r: string)
    ensures r != [] && forall k :: 0 <= k < |r| ==> IsDigit(r[k])
    ensures ParseNat(r) == n
  {
    if n < 10 then [('0' as int + n) as char]
    else NatToString(n / 10) + [('0' as int + n % 10) as char]
  }

  /** The value of a string of decimal digits. */
  function ParseNat(s: string): nat
    requires forall k :: 0 <= k < |s| ==> IsDigit(s[k])
  {
    if s == [] then 0
    else
      assert IsDigit(s[|s| - 1]);
      10 * ParseNat(s[..|s| - 1]) + (s[|s| - 1] as int - '0' as int)
  }

  /** The concatenation of a sequence of sequences, in order. */
  function Flatten<T>(xs: seq<seq<T>>): seq<T> {
    if xs == [] then [] else xs[0] + Flatten(xs[1..])
  }

  lemma {:induction false} FlattenAppend<T>(xs: seq<seq<T>>, x: seq<T>)
    ensures Flatten(xs + [x]) == Flatten(xs) + x
    decreases |xs|
  {
    if xs != [] {
      assert (xs + [x])[1..] == xs[1..] + [x];
      FlattenAppend(xs[1..], x);
    }
  }
}
