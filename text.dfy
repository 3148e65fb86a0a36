/** The JavaScript string operations the pages rely on: `split`, `join`, `trim`,
    `toLowerCase` and `split(c).pop()`. */
module Text {
  import opened Seqs

  /** The white space and line terminators that `String.prototype.trim` removes,
      apart from the range U+2000 to U+200A. */
  const SpaceChars: set<char> := {
    ' ', '\t', '\n', '\r', '\U{000B}', '\U{000C}', '\U{00A0}', '\U{1680}',
    '\U{2028}', '\U{2029}', '\U{202F}', '\U{205F}', '\U{3000}', '\U{FEFF}'
  }

  predicate IsSpace(c: char) {
    c in SpaceChars || '\U{2000}' <= c <= '\U{200A}'
  }

  /** Neither starts nor ends with a character `trim` would remove. */
  predicate Trimmed(s: string) {
    s == [] || (!IsSpace(s[0]) && !IsSpace(s[|s| - 1]))
  }

  /** `s` without its leading white space. */
  function TrimStart(s: string): (r: string)
    ensures |r| <= |s|
  {
    if |s| > 0 && IsSpace(s[0]) then TrimStart(s[1..]) else s
  }

  /** `s` without its trailing white space. */
  function TrimEnd(s: string): (r: string)
    ensures |r| <= |s|
  {
    if |s| > 0 && IsSpace(s[|s| - 1]) then TrimEnd(s[..|s| - 1]) else s
  }

  /** TrimStart keeps a suffix that does not start with white space and removes only
      white space. */
  lemma {:induction false} TrimStartFacts(s: string)
    ensures TrimStart(s) == s[|s| - |TrimStart(s)|..]
    ensures TrimStart(s) == [] || !IsSpace(TrimStart(s)[0])
    ensures forall i :: 0 <= i < |s| - |TrimStart(s)| ==> IsSpace(s[i])
    decreases |s|
  {
    if |s| > 0 && IsSpace(s[0]) {
      TrimStartFacts(s[1..]);
    }
  }

  /** TrimEnd keeps a prefix that does not end with white space and removes only
      white space. */
  lemma {:induction false} TrimEndFacts(s: string)
    ensures TrimEnd(s) == s[..|TrimEnd(s)|]
    ensures TrimEnd(s) == [] || !IsSpace(TrimEnd(s)[|TrimEnd(s)| - 1])
    ensures forall i :: |TrimEnd(s)| <= i < |s| ==> IsSpace(s[i])
    decreases |s|
  {
    if |s| > 0 && IsSpace(s[|s| - 1]) {
      TrimEndFacts(s[..|s| - 1]);
    }
  }

  /** `s.trim()`. */
  function Trim(s: string): (r: string)
    ensures |r| <= |s|
  {
    TrimEnd(TrimStart(s))
  }

  /** What `trim` returns neither starts nor ends with white space. */
  lemma TrimIsTrimmed(s: string)
    ensures Trimmed(Trim(s))
  {
    var t := TrimStart(s);
    TrimStartFacts(s);
    TrimEndFacts(t);
    var r := TrimEnd(t);
    if r != [] {
      assert r[0] == t[0];
    }
  }

  /** Only an all-blank string trims to "". */
  lemma TrimBlank(s: string)
    ensures Trim(s) == [] <==> forall i :: 0 <= i < |s| ==> IsSpace(s[i])
  {
    var t := TrimStart(s);
    var r := TrimEnd(t);
    TrimStartFacts(s);
    TrimEndFacts(t);
    assert r == [] ==> t == [];
    assert r != [] ==> !IsSpace(s[|s| - |t|]) by {
      if r != [] { assert r[0] == t[0] == s[|s| - |t|]; }
    }
  }

  /** `trim` only removes characters: whatever it keeps was in `s`. */
  lemma TrimInside(s: string)
    ensures forall c :: c in Trim(s) ==> c in s
  {
    var t := TrimStart(s);
    TrimStartFacts(s);
    TrimEndFacts(t);
    forall c | c in Trim(s)
      ensures c in s
    {
      var i :| 0 <= i < |Trim(s)| && Trim(s)[i] == c;
      assert t[i] == c;
      assert s[|s| - |t| + i] == c;
    }
  }

  lemma TrimTrimmed(s: string)
    requires Trimmed(s)
    ensures Trim(s) == s
  {
  }

  /** A leading white-space character never survives `trim`. */
  lemma TrimLeadingSpace(c: char, s: string)
    requires IsSpace(c)
    ensures Trim([c] + s) == Trim(s)
  {
    assert ([c] + s)[1..] == s;
  }

  /** ASCII case folding; see README for what is not modelled. */
  function LowerChar(c: char): char {
    if 'A' <= c <= 'Z' then (c as int + 32) as char else c
  }

  /** `s.toLowerCase()`: same length, no upper-case ASCII letter left. */
  function ToLower(s: string): (r: string)
    ensures |r| == |s|
    ensures forall i :: 0 <= i < |r| ==> !('A' <= r[i] <= 'Z')
  {
    Map(s, LowerChar)
  }

  /** `s.split(sep)` for a one-character separator: never empty, no piece holds the separator. */
  function Split(s: string, sep: char): (r: seq<string>)
    ensures |r| >= 1
    ensures forall i :: 0 <= i < |r| ==> sep !in r[i]
    decreases |s|
  {
    if |s| == 0 then [""]
    else if s[0] == sep then [""] + Split(s[1..], sep)
    else
      var rest := Split(s[1..], sep);
      [[s[0]] + rest[0]] + rest[1..]
  }

  /** `parts.join(sep)`. */
  function Join(parts: seq<string>, sep: string): string
    decreases |parts|
  {
    if |parts| == 0 then ""
    else if |parts| == 1 then parts[0]
    else parts[0] + sep + Join(parts[1..], sep)
  }

  /** `s.split(sep).pop()`: the text after the last separator, or all of `s`. */
  function LastSegment(s: string, sep: char): (r: string)
    ensures sep !in r
  {
    var parts := Split(s, sep);
    parts[|parts| - 1]
  }

  lemma {:induction false} SplitWithout(s: string, sep: char)
    requires sep !in s
    ensures Split(s, sep) == [s]
    decreases |s|
  {
    if |s| > 0 {
      SplitWithout(s[1..], sep);
      assert [s[0]] + s[1..] == s;
    }
  }

  /** Splitting distributes over a separator occurrence. */
  lemma {:induction false} SplitAppend(a: string, b: string, sep: char)
    ensures Split(a + [sep] + b, sep) == Split(a, sep) + Split(b, sep)
    decreases |a|
  {
    var s := a + [sep] + b;
    if |a| == 0 {
      assert s[1..] == b;
    } else {
      assert s[1..] == a[1..] + [sep] + b;
      SplitAppend(a[1..], b, sep);
    }
  }

  /** The text after the last separator is whatever follows it. */
  lemma LastSegmentAfter(a: string, b: string, sep: char)
    requires sep !in b
    ensures LastSegment(a + [sep] + b, sep) == b
  {
    SplitAppend(a, b, sep);
    SplitWithout(b, sep);
  }

  /** Every piece of a split is made of characters of the split string. */
  lemma {:induction false} SplitInside(s: string, sep: char)
    ensures forall i, c :: 0 <= i < |Split(s, sep)| && c in Split(s, sep)[i] ==> c in s
    decreases |s|
  {
    if |s| > 0 {
      SplitInside(s[1..], sep);
      var r := Split(s, sep);
      var rest := Split(s[1..], sep);
      assert s == [s[0]] + s[1..];
      forall i, c | 0 <= i < |r| && c in r[i]
        ensures c in s
      {
        if s[0] == sep {
          assert r[i] == rest[i - 1];
        } else if i == 0 {
          assert r[0] == [s[0]] + rest[0];
        } else {
          assert r[i] == rest[i];
        }
      }
    }
  }

  /** The last segment is made of characters of the split string. */
  lemma LastSegmentInside(s: string, sep: char)
    ensures forall c :: c in LastSegment(s, sep) ==> c in s
  {
    SplitInside(s, sep);
  }

  lemma LastSegmentWithout(s: string, sep: char)
    requires sep !in s
    ensures LastSegment(s, sep) == s
  {
    SplitWithout(s, sep);
  }

  /** Splitting a string whose first character is not the separator extends the first piece. */
  lemma SplitCons(c: char, x: string, sep: char)
    requires c != sep
    ensures Split([c] + x, sep) == [[c] + Split(x, sep)[0]] + Split(x, sep)[1..]
  {
    assert ([c] + x)[1..] == x;
  }

  /** The pieces of "p, x" split on ",": `p` and the pieces of " x". */
  lemma SplitCommaSpace(p: string, x: string)
    requires ',' !in p
    ensures Split(p + ", " + x, ',') == [p] + ([[' '] + Split(x, ',')[0]] + Split(x, ',')[1..])
  {
    assert p + ", " + x == p + [','] + ([' '] + x);
    SplitAppend(p, [' '] + x, ',');
    SplitWithout(p, ',');
    SplitCons(' ', x, ',');
  }

  /** `parts.map(s => s.trim())`. */
  function TrimAll(parts: seq<string>): (r: seq<string>)
    ensures |r| == |parts|
    ensures forall i :: 0 <= i < |r| ==> Trimmed(r[i])
  {
    if |parts| == 0 then []
    else
      TrimIsTrimmed(parts[0]);
      [Trim(parts[0])] + TrimAll(parts[1..])
  }

  /** TrimAll trims each piece in place. */
  lemma {:induction false} TrimAllAt(parts: seq<string>)
    ensures forall i :: 0 <= i < |parts| ==> TrimAll(parts)[i] == Trim(parts[i])
    decreases |parts|
  {
    if |parts| > 0 {
      TrimAllAt(parts[1..]);
    }
  }

  lemma TrimAllCons(p: string, rest: seq<string>)
    ensures TrimAll([p] + rest) == [Trim(p)] + TrimAll(rest)
  {
    assert ([p] + rest)[1..] == rest;
  }

  lemma SplitJoinedSingle(p: string)
    requires ',' !in p && Trimmed(p)
    ensures TrimAll(Split(Join([p], ", "), ',')) == [p]
  {
    SplitWithout(p, ',');
    TrimTrimmed(p);
    assert [p][1..] == [];
  }

  /** One step of SplitJoinedList: the head piece, then the pieces of " " + the rest. */
  lemma SplitJoinedStep(parts: seq<string>)
    requires |parts| >= 2 && ',' !in parts[0] && Trimmed(parts[0])
    requires TrimAll(Split(Join(parts[1..], ", "), ',')) == parts[1..]
    ensures TrimAll(Split(Join(parts, ", "), ',')) == parts
  {
    TrimTrimmed(parts[0]);
    var x := Join(parts[1..], ", ");
    var sx := Split(x, ',');
    SplitCommaSpace(parts[0], x);
    assert Join(parts, ", ") == parts[0] + ", " + x;
    calc {
      TrimAll(Split(Join(parts, ", "), ','));
      TrimAll([parts[0]] + ([[' '] + sx[0]] + sx[1..]));
      { TrimAllCons(parts[0], [[' '] + sx[0]] + sx[1..]); }
      [parts[0]] + TrimAll([[' '] + sx[0]] + sx[1..]);
      { TrimAllCons([' '] + sx[0], sx[1..]); TrimLeadingSpace(' ', sx[0]); }
      [parts[0]] + ([Trim(sx[0])] + TrimAll(sx[1..]));
      { TrimAllCons(sx[0], sx[1..]); assert [sx[0]] + sx[1..] == sx; }
      [parts[0]] + TrimAll(sx);
      [parts[0]] + parts[1..];
      parts;
    }
  }

  /** A list joined with ", " and split again on "," trims back to itself. */
  lemma {:induction false} SplitJoinedList(parts: seq<string>)
    requires |parts| >= 1
    requires forall i :: 0 <= i < |parts| ==> ',' !in parts[i] && Trimmed(parts[i])
    ensures TrimAll(Split(Join(parts, ", "), ',')) == parts
    decreases |parts|
  {
    if |parts| == 1 {
      SplitJoinedSingle(parts[0]);
      assert parts == [parts[0]];
    } else {
      SplitJoinedList(parts[1..]);
      SplitJoinedStep(parts);
    }
  }

  /** A joined list whose first entry is not blank is not blank. */
  lemma JoinedNotBlank(parts: seq<string>, sep: string)
    requires |parts| >= 1 && parts[0] != [] && Trimmed(parts[0])
    ensures Trim(Join(parts, sep)) != ""
  {
    var j := Join(parts, sep);
    assert j[0] == parts[0][0];
    TrimEndFacts(j);
  }
}
