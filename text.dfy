/** The JavaScript string built-ins the parser and the views rely on: `trim`, the `\s` and `\w`
    character classes, `startsWith`/`endsWith`, `split`, `join` and `Array.from` on a string.
    A string is a sequence of Unicode scalar values; lone surrogates are not representable. */
module Text {

  /** JavaScript's WhiteSpace and LineTerminator code points: exactly what `trim` removes and
      what `\s` matches. */
  predicate IsSpace(c: char)
  {
    || ('\t' <= c <= '\r') || c == ' ' || c == '\U{00A0}' || c == '\U{1680}' || ('\U{2000}' <= c <= '\U{200A}')
    || c == '\U{2028}' || c == '\U{2029}' || c == '\U{202F}' || c == '\U{205F}'
    || c == '\U{3000}' || c == '\U{FEFF}'
  }

  /** The characters that `.` in a regular expression does not match. */
  predicate IsLineTerminator(c: char)
  {
    c == '\n' || c == '\r' || c == '\U{2028}' || c == '\U{2029}'
  }

  /** The `\w` class. */
  predicate IsWordChar(c: char)
  {
    ('a' <= c <= 'z') || ('A' <= c <= 'Z') || ('0' <= c <= '9') || c == '_'
  }

  predicate IsQuote(c: char)
  {
    c == '\'' || c == '"'
  }

  /** The class `[^,}\s]` of the option values. */
  predicate IsTokenChar(c: char)
  {
    c != ',' && c != '}' && !IsSpace(c)
  }

  /** The character classes that the parser's patterns repeat greedily: `\s`, `\w`, `[^'"]`,
      `[^,}\s]` and the `.` of `(.*)`. */
  datatype CharClass = Space | Word | NotQuote | Token | NotLineTerminator

  predicate InClass(c: char, cls: CharClass)
  {
    match cls
    case Space => IsSpace(c)
    case Word => IsWordChar(c)
    case NotQuote => !IsQuote(c)
    case Token => IsTokenChar(c)
    case NotLineTerminator => !IsLineTerminator(c)
  }

  predicate AllSpace(s: string)
  {
    forall k :: 0 <= k < |s| ==> IsSpace(s[k])
  }

  /** `s` has no white space at either end, as every result of `Trim` has. */
  predicate IsTrimmed(s: string)
  {
    s == [] || (!IsSpace(s[0]) && !IsSpace(s[|s| - 1]))
  }

  /** `String.prototype.trim`: white space dropped from both ends. */
  function Trim(s: string): (r: string)
    ensures |r| <= |s|
    decreases |s|
  {
    if s == [] then s
    else if IsSpace(s[0]) then Trim(s[1..])
    else if IsSpace(s[|s| - 1]) then Trim(s[..|s| - 1])
    else s
  }

  /** `Trim` leaves no white space at either end. */
  lemma {:induction false} TrimTrims(s: string)
    ensures IsTrimmed(Trim(s))
    decreases |s|
  {
    if s != [] {
      if IsSpace(s[0]) {
        TrimTrims(s[1..]);
      } else if IsSpace(s[|s| - 1]) {
        TrimTrims(s[..|s| - 1]);
      }
    }
  }

  /** What `Trim` keeps is what lies between white space it drops on either side: together
      with `TrimTrims`, it is the longest such infix. */
  lemma TrimIsInfix(s: string)
    ensures exists a, b :: s == a + Trim(s) + b && AllSpace(a) && AllSpace(b)
  {
    var a, b := TrimmedAway(s);
  }

  /** The white space `Trim` drops at the front and at the back of `s`. */
  lemma {:induction false} TrimmedAway(s: string) returns (a: string, b: string)
    ensures s == a + Trim(s) + b && AllSpace(a) && AllSpace(b)
    decreases |s|
  {
    if s == [] || (!IsSpace(s[0]) && !IsSpace(s[|s| - 1])) {
      a, b := [], [];
    } else if IsSpace(s[0]) {
      var a', b' := TrimmedAway(s[1..]);
      assert s == [s[0]] + s[1..];
      a := SpaceBefore(s[0], s[1..], a', Trim(s), b');
      b := b';
    } else {
      var a', b' := TrimmedAway(s[..|s| - 1]);
      assert s == s[..|s| - 1] + [s[|s| - 1]];
      a := a';
      b := SpaceAfter(s[..|s| - 1], s[|s| - 1], a', Trim(s), b');
    }
  }

  lemma SpaceBefore(c: char, s: string, a: string, t: string, b: string) returns (a': string)
    requires IsSpace(c) && s == a + t + b && AllSpace(a)
    ensures a' == [c] + a && [c] + s == a' + t + b && AllSpace(a')
  {
    a' := [c] + a;
  }

  lemma SpaceAfter(s: string, c: char, a: string, t: string, b: string) returns (b': string)
    requires IsSpace(c) && s == a + t + b && AllSpace(b)
    ensures b' == b + [c] && s + [c] == a + t + b' && AllSpace(b')
  {
    b' := b + [c];
  }

  /** Trimming leaves an already trimmed string alone; in particular `Trim` is idempotent. */
  lemma TrimOfTrimmed(s: string)
    requires IsTrimmed(s)
    ensures Trim(s) == s
  {
  }

  predicate StartsWith(s: string, prefix: string)
  {
    |prefix| <= |s| && s[..|prefix|] == prefix
  }

  predicate EndsWith(s: string, suffix: string)
  {
    |suffix| <= |s| && s[|s| - |suffix|..] == suffix
  }

  /** The first position of `c` in `s` from `i` on, or `|s|` when there is none. */
  function IndexFrom(s: string, c: char, i: nat): (j: nat)
    requires i <= |s|
    ensures i <= j <= |s|
    ensures j < |s| ==> s[j] == c
    ensures forall k :: i <= k < j ==> s[k] != c
    decreases |s| - i
  {
    if i == |s| || s[i] == c then i else IndexFrom(s, c, i + 1)
  }

  /** The end of the longest run of characters of class `cls` that starts at `i`: a greedy
      repetition in a regular expression. */
  function SpanEnd(s: string, i: nat, cls: CharClass): (j: nat)
    requires i <= |s|
    ensures i <= j <= |s|
    ensures forall k :: i <= k < j ==> InClass(s[k], cls)
    ensures j == |s| || !InClass(s[j], cls)
    decreases |s| - i
  {
    if i < |s| && InClass(s[i], cls) then SpanEnd(s, i + 1, cls) else i
  }

  /** A run that stops where the class first fails is the one `SpanEnd` finds. */
  lemma {:induction false} SpanEndExact(s: string, i: nat, j: nat, cls: CharClass)
    requires i <= j <= |s|
    requires forall k :: i <= k < j ==> InClass(s[k], cls)
    requires j == |s| || !InClass(s[j], cls)
    ensures SpanEnd(s, i, cls) == j
    decreases j - i
  {
    if i < j {
      SpanEndExact(s, i + 1, j, cls);
    }
  }

  /** A greedy `\s*` starting at `i`. */
  function SkipSpaces(s: string, i: nat): (j: nat)
    requires i <= |s|
    ensures i <= j <= |s|
    ensures AllSpace(s[i..j])
    ensures j == |s| || !IsSpace(s[j])
  {
    SpanEnd(s, i, Space)
  }

  /** `String.prototype.split` with a one-character separator: the pieces between separators,
      always at least one. */
  function SplitOn(s: string, sep: char): (parts: seq<string>)
    ensures |parts| >= 1
    ensures forall k :: 0 <= k < |parts| ==> sep !in parts[k]
  {
    SplitFrom(s, sep, 0)
  }

  /** The pieces of `s[i..]`. */
  function SplitFrom(s: string, sep: char, i: nat): (parts: seq<string>)
    requires i <= |s|
    ensures |parts| >= 1
    ensures forall k :: 0 <= k < |parts| ==> sep !in parts[k]
    decreases |s| - i
  {
    var j := IndexFrom(s, sep, i);
    assert sep !in s[i..j] by {
      assert forall k :: 0 <= k < j - i ==> s[i..j][k] == s[i + k];
    }
    if j == |s| then [s[i..j]] else [s[i..j]] + SplitFrom(s, sep, j + 1)
  }

  /** `Array.prototype.join`. */
  function Join(parts: seq<string>, sep: string): string
  {
    if parts == [] then ""
    else if |parts| == 1 then parts[0]
    else parts[0] + sep + Join(parts[1..], sep)
  }

  /** White space in front of a string does not survive `trim`. */
  lemma {:induction false} TrimSpacePrefix(a: string, t: string)
    requires AllSpace(a)
    ensures Trim(a + t) == Trim(t)
    decreases |a|
  {
    if a != [] {
      assert (a + t)[0] == a[0] && IsSpace(a[0]);
      assert (a + t)[1..] == a[1..] + t;
      assert Trim(a + t) == Trim((a + t)[1..]);
      TrimSpacePrefix(a[1..], t);
    } else {
      assert a + t == t;
    }
  }

  /** Joining one more part appends the separator and that part. */
  lemma {:induction false} JoinSnoc(parts: seq<string>, x: string, sep: string)
    requires parts != []
    ensures Join(parts + [x], sep) == Join(parts, sep) + sep + x
    decreases |parts|
  {
    var all := parts + [x];
    assert all[0] == parts[0];
    if |parts| == 1 {
      assert all[1..] == [x];
    } else {
      assert all[1..] == parts[1..] + [x];
      JoinSnoc(parts[1..], x, sep);
    }
  }

  lemma SliceAround(s: string, i: nat, j: nat)
    requires i <= j < |s|
    ensures s[i..] == s[i..j] + [s[j]] + s[j + 1..]
  {
  }

  lemma JoinCons(part: string, rest: seq<string>, sep: string)
    requires rest != []
    ensures Join([part] + rest, sep) == part + sep + Join(rest, sep)
  {
    assert ([part] + rest)[1..] == rest;
  }

  /** Splitting loses nothing: joining the pieces with the separator gives the text back. */
  lemma SplitJoin(s: string, sep: char)
    ensures Join(SplitOn(s, sep), [sep]) == s
  {
    SplitFromJoin(s, sep, 0);
  }

  lemma {:induction false} SplitFromJoin(s: string, sep: char, i: nat)
    requires i <= |s|
    ensures Join(SplitFrom(s, sep, i), [sep]) == s[i..]
    decreases |s| - i
  {
    var j := IndexFrom(s, sep, i);
    if j < |s| {
      var rest := SplitFrom(s, sep, j + 1);
      SplitFromJoin(s, sep, j + 1);
      assert SplitFrom(s, sep, i) == [s[i..j]] + rest;
      JoinCons(s[i..j], rest, [sep]);
      SliceAround(s, i, j);
    }
  }

  /** Two pieces with one separator between them split into those two pieces. */
  lemma SplitPair(a: string, b: string, sep: char)
    requires sep !in a && sep !in b
    ensures SplitOn(a + [sep] + b, sep) == [a, b]
  {
    var s := a + [sep] + b;
    assert forall k :: 0 <= k < |a| ==> s[k] == a[k];
    assert forall k :: 0 <= k < |b| ==> s[|a| + 1 + k] == b[k];
    assert s[|a|] == sep;
    assert SplitOn(s, sep) == [s[0..|a|]] + SplitFrom(s, sep, |a| + 1);
    assert s[0..|a|] == a;
    assert s[|a| + 1..|s|] == b;
  }

  /** `Array.from` on a string: one single-character string per code point. */
  function Chars(s: string): (r: seq<string>)
    ensures |r| == |s|
    ensures forall k :: 0 <= k < |s| ==> r[k] == [s[k]]
  {
    seq(|s|, k requires 0 <= k < |s| => [s[k]])
  }
}
