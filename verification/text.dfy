/** Models of the Python string operations the system relies on:
    `str.lower`, `str.strip`, `str.title`, `re.sub(r'\s+', ' ', _)`, the `in`
    substring test, `str.replace`, `str.split` and `str.join`. Whitespace is
    Python's full set; case mapping applies to ASCII letters only, leaving every
    other character unchanged (and never treating it as a letter). */
module Text {

  /** The characters Python's `str.isspace` accepts (and so what `strip()` removes
      and what `\s` matches): tab through carriage return, the four information
      separators, space, and the Unicode spaces and line/paragraph separators. */
  predicate IsSpace(c: char) {
    || '\t' <= c <= '\r'
    || '\U{001C}' <= c <= ' '
    || c == '\U{0085}' || c == '\U{00A0}' || c == '\U{1680}'
    || '\U{2000}' <= c <= '\U{200A}'
    || c == '\U{2028}' || c == '\U{2029}' || c == '\U{202F}' || c == '\U{205F}' || c == '\U{3000}'
  }

  predicate IsUpper(c: char) { 'A' <= c <= 'Z' }

  predicate IsLower(c: char) { 'a' <= c <= 'z' }

  predicate IsLetter(c: char) { IsUpper(c) || IsLower(c) }

  function LowerChar(c: char): char {
    if IsUpper(c) then (c as int + 32) as char else c
  }

  function UpperChar(c: char): char {
    if IsLower(c) then (c as int - 32) as char else c
  }

  /** `s.lower()` */
  function Lower(s: string): (r: string)
    ensures |r| == |s|
    ensures forall i :: 0 <= i < |s| ==> r[i] == LowerChar(s[i])
  {
    if |s| == 0 then [] else [LowerChar(s[0])] + Lower(s[1..])
  }

  /** A string that has at least one non-whitespace character (`s.strip() != ""`). */
  predicate NonBlank(s: string) {
    exists i :: 0 <= i < |s| && !IsSpace(s[i])
  }

  /** `s.lstrip()` */
  function LStrip(s: string): (r: string)
    ensures |r| <= |s| && r == s[|s| - |r|..]
    ensures |r| > 0 ==> !IsSpace(r[0])
    ensures forall i :: 0 <= i < |s| - |r| ==> IsSpace(s[i])
  {
    if |s| > 0 && IsSpace(s[0]) then LStrip(s[1..]) else s
  }

  /** `s.rstrip()` */
  function RStrip(s: string): (r: string)
    ensures |r| <= |s| && r == s[..|r|]
    ensures |r| > 0 ==> !IsSpace(r[|r| - 1])
    ensures forall i :: |r| <= i < |s| ==> IsSpace(s[i])
  {
    if |s| > 0 && IsSpace(s[|s| - 1]) then RStrip(s[..|s| - 1]) else s
  }

  /** `s.strip()` */
  function Strip(s: string): (r: string)
    ensures |r| <= |s|
    ensures |r| > 0 ==> !IsSpace(r[0]) && !IsSpace(r[|r| - 1])
    ensures r == [] <==> !NonBlank(s)
  {
    StripKeepsText(s);
    StripDropsBlank(s);
    RStrip(LStrip(s))
  }

  lemma StripKeepsText(s: string)
    ensures NonBlank(s) ==> RStrip(LStrip(s)) != []
  {
    if NonBlank(s) {
      var i :| 0 <= i < |s| && !IsSpace(s[i]);
      var j := LStripKeeps(s, i);
      RStripKeeps(LStrip(s), j);
    }
  }

  /** A non-whitespace character of `s` survives `lstrip`, at index `j`. */
  lemma LStripKeeps(s: string, i: nat) returns (j: nat)
    requires i < |s| && !IsSpace(s[i])
    ensures j < |LStrip(s)| && !IsSpace(LStrip(s)[j])
  {
    var l := LStrip(s);
    j := i - (|s| - |l|);
    assert l[j] == s[i];
  }

  /** A non-whitespace character at index `j` survives `rstrip`. */
  lemma RStripKeeps(s: string, j: nat)
    requires j < |s| && !IsSpace(s[j])
    ensures RStrip(s) != []
  {
    assert |RStrip(s)| > j;
  }

  lemma StripDropsBlank(s: string)
    ensures RStrip(LStrip(s)) != [] ==> NonBlank(s)
  {
    var l := LStrip(s);
    if RStrip(l) != [] {
      var k := |s| - |l|;
      assert l[0] == s[k] && !IsSpace(s[k]);
    }
  }

  /** Stripping a string with no outer whitespace returns it unchanged. */
  lemma StripUnpadded(s: string)
    requires Unpadded(s)
    ensures Strip(s) == s
  {
  }

  /** No whitespace at either end. */
  predicate Unpadded(s: string) {
    |s| > 0 ==> !IsSpace(s[0]) && !IsSpace(s[|s| - 1])
  }

  /** `t` is `s` with some whitespace removed from each end and nothing else. */
  ghost predicate Trimmed(s: string, t: string) {
    exists a: nat :: TrimmedAt(s, t, a)
  }

  /** `t` occurs in `s` at `a`, with only whitespace around it. */
  predicate TrimmedAt(s: string, t: string, a: nat) {
    && a + |t| <= |s| && s[a..a + |t|] == t
    && (forall i :: 0 <= i < a ==> IsSpace(s[i]))
    && (forall i :: a + |t| <= i < |s| ==> IsSpace(s[i]))
  }

  /** `Strip` removes only outer whitespace. */
  lemma StripTrimmed(s: string)
    ensures Trimmed(s, Strip(s))
  {
    var l := LStrip(s);
    var r := RStrip(l);
    var a := |s| - |l|;
    assert s[a..a + |r|] == r;
    forall i | a + |r| <= i < |s|
      ensures IsSpace(s[i])
    {
      assert s[i] == l[i - a];
    }
    assert TrimmedAt(s, r, a);
  }

  /** `s.startswith(p)` */
  predicate StartsWith(s: string, p: string) {
    |p| <= |s| && s[..|p|] == p
  }

  /** `p in s` for strings. */
  predicate Contains(s: string, p: string)
    decreases |s|
  {
    StartsWith(s, p) || (|s| > 0 && Contains(s[1..], p))
  }

  /** An occurrence at position `i` is an occurrence. */
  lemma {:induction false} ContainsAt(s: string, p: string, i: nat)
    requires i <= |s| && StartsWith(s[i..], p)
    ensures Contains(s, p)
    decreases i
  {
    if i > 0 {
      assert s[1..][i - 1..] == s[i..];
      ContainsAt(s[1..], p, i - 1);
    } else {
      assert s[0..] == s;
    }
  }

  /** An occurrence gives a position. */
  lemma {:induction false} ContainsWitness(s: string, p: string) returns (i: nat)
    requires Contains(s, p)
    ensures i <= |s| && StartsWith(s[i..], p)
    decreases |s|
  {
    if StartsWith(s, p) {
      i := 0;
      assert s[0..] == s;
    } else {
      var j := ContainsWitness(s[1..], p);
      i := j + 1;
      assert s[1..][j..] == s[i..];
    }
  }

  /** The substring relation is transitive. */
  lemma ContainsTransitive(s: string, p: string, q: string)
    requires Contains(s, p) && Contains(p, q)
    ensures Contains(s, q)
  {
    var i := ContainsWitness(s, p);
    var j := ContainsWitness(p, q);
    forall k | 0 <= k < |q|
      ensures s[i + j + k] == q[k]
    {
      assert p[j + k] == q[k];
      assert s[i + j + k] == p[j + k];
    }
    assert s[i + j..][..|q|] == q;
    ContainsAt(s, q, i + j);
  }

  /** `s.replace(pat, rep)`: every non-overlapping occurrence of `pat`, scanning from
      the left, is replaced. Only non-empty patterns are used by the system. */
  function ReplaceAll(s: string, pat: string, rep: string): (r: string)
    requires |pat| > 0
    decreases |s|
  {
    if |s| == 0 then []
    else if StartsWith(s, pat) then rep + ReplaceAll(s[|pat|..], pat, rep)
    else [s[0]] + ReplaceAll(s[1..], pat, rep)
  }

  /** Replacing a single character by a text that lacks it removes it. */
  lemma {:induction false} ReplaceAllRemoves(s: string, c: char, rep: string)
    requires c !in rep
    ensures c !in ReplaceAll(s, [c], rep)
    decreases |s|
  {
    if |s| > 0 {
      ReplaceAllRemoves(s[1..], c, rep);
      if !StartsWith(s, [c]) {
        assert s[..1] == [s[0]];
      }
    }
  }

  /** Replacing a single character is splitting on it and joining with the
      replacement. */
  lemma {:induction false} ReplaceAllSplitJoin(s: string, c: char, rep: string)
    ensures ReplaceAll(s, [c], rep) == Join(SplitOn(s, c), rep)
    decreases |s|
  {
    if |s| > 0 {
      var rest := SplitOn(s[1..], c);
      ReplaceAllSplitJoin(s[1..], c, rep);
      if s[0] == c {
        assert StartsWith(s, [c]);
        JoinCons([], rest, rep);
      } else {
        assert !StartsWith(s, [c]) by { assert s[..1] == [s[0]]; }
        if |rest| > 1 {
          JoinCons([s[0]] + rest[0], rest[1..], rep);
          JoinCons(rest[0], rest[1..], rep);
          assert [rest[0]] + rest[1..] == rest;
        }
      }
    }
  }

  /** A stretch without the pattern's first character is copied unchanged. */
  lemma {:induction false} ReplaceAllSkip(a: string, b: string, pat: string, rep: string)
    requires |pat| > 0 && pat[0] !in a
    ensures ReplaceAll(a + b, pat, rep) == a + ReplaceAll(b, pat, rep)
    decreases |a|
  {
    if |a| > 0 {
      assert (a + b)[1..] == a[1..] + b;
      ReplaceAllSkip(a[1..], b, pat, rep);
      assert [a[0]] + a[1..] == a;
    } else {
      assert a + b == b;
    }
  }

  /** `s.replace(c, d)` for single characters. */
  function ReplaceChar(s: string, c: char, d: char): (r: string)
    ensures |r| == |s|
    ensures forall i :: 0 <= i < |s| ==> r[i] == (if s[i] == c then d else s[i])
  {
    if |s| == 0 then [] else [if s[0] == c then d else s[0]] + ReplaceChar(s[1..], c, d)
  }

  /** Replacing characters distributes over concatenation. */
  lemma ReplaceCharConcat(a: string, b: string, c: char, d: char)
    ensures ReplaceChar(a + b, c, d) == ReplaceChar(a, c, d) + ReplaceChar(b, c, d)
  {
    var l := ReplaceChar(a + b, c, d);
    var r := ReplaceChar(a, c, d) + ReplaceChar(b, c, d);
    assert forall i :: 0 <= i < |l| ==> l[i] == r[i];
  }

  /** Replacing an absent character changes nothing. */
  lemma ReplaceCharAbsent(s: string, c: char, d: char)
    requires c !in s
    ensures ReplaceChar(s, c, d) == s
  {
    var r := ReplaceChar(s, c, d);
    assert forall i :: 0 <= i < |r| ==> r[i] == s[i];
  }

  /** Replacing a character absent from every part replaces it in the separators only. */
  lemma {:induction false} ReplaceCharJoin(parts: seq<string>, sep: string, c: char, d: char)
    requires forall i :: 0 <= i < |parts| ==> c !in parts[i]
    ensures ReplaceChar(Join(parts, sep), c, d) == Join(parts, ReplaceChar(sep, c, d))
  {
    if |parts| == 1 {
      ReplaceCharAbsent(parts[0], c, d);
    } else if |parts| > 1 {
      ReplaceCharJoin(parts[1..], sep, c, d);
      ReplaceCharConcat(parts[0] + sep, Join(parts[1..], sep), c, d);
      ReplaceCharConcat(parts[0], sep, c, d);
      ReplaceCharAbsent(parts[0], c, d);
    }
  }

  /** Number of occurrences of `c` in `s`. */
  function Occurrences(s: string, c: char): nat {
    if |s| == 0 then 0 else (if s[0] == c then 1 else 0) + Occurrences(s[1..], c)
  }

  /** `s.split(c)`: the pieces between occurrences of `c`; always at least one. */
  function SplitOn(s: string, c: char): (parts: seq<string>)
    ensures |parts| > 0
  {
    if |s| == 0 then [[]]
    else
      var rest := SplitOn(s[1..], c);
      if s[0] == c then [[]] + rest else [[s[0]] + rest[0]] + rest[1..]
  }

  /** `sep.join(parts)` */
  function Join(parts: seq<string>, sep: string): string {
    if |parts| == 0 then []
    else if |parts| == 1 then parts[0]
    else parts[0] + sep + Join(parts[1..], sep)
  }

  lemma {:induction false} JoinCons(p: string, parts: seq<string>, sep: string)
    requires |parts| > 0
    ensures Join([p] + parts, sep) == p + sep + Join(parts, sep)
  {
    assert ([p] + parts)[1..] == parts;
  }

  /** A join begins with its first part. */
  lemma {:induction false} JoinStarts(parts: seq<string>, sep: string)
    requires |parts| > 0
    ensures |parts[0]| <= |Join(parts, sep)| && Join(parts, sep)[..|parts[0]|] == parts[0]
  {
  }

  /** No piece produced by splitting on `c` contains `c`. */
  lemma {:induction false} SplitOnPiecesFree(s: string, c: char)
    ensures forall k, j :: 0 <= k < |SplitOn(s, c)| && 0 <= j < |SplitOn(s, c)[k]| ==> SplitOn(s, c)[k][j] != c
    decreases |s|
  {
    if |s| > 0 {
      SplitOnPiecesFree(s[1..], c);
    }
  }

  /** Splitting and re-joining with the same separator gives the input back. */
  lemma {:induction false} JoinSplitOn(s: string, c: char)
    ensures Join(SplitOn(s, c), [c]) == s
    decreases |s|
  {
    if |s| > 0 {
      var rest := SplitOn(s[1..], c);
      JoinSplitOn(s[1..], c);
      if s[0] == c {
        JoinCons([], rest, [c]);
      } else if |rest| == 1 {
      } else {
        JoinCons([s[0]] + rest[0], rest[1..], [c]);
        JoinCons(rest[0], rest[1..], [c]);
        assert [rest[0]] + rest[1..] == rest;
      }
    }
  }

  /** Joining pieces free of `c` with `c` and splitting again gives the pieces back. */
  lemma {:induction false} SplitOnJoin(parts: seq<string>, c: char)
    requires |parts| > 0
    requires forall k, j :: 0 <= k < |parts| && 0 <= j < |parts[k]| ==> parts[k][j] != c
    ensures SplitOn(Join(parts, [c]), c) == parts
    decreases |parts|, |parts[0]|
  {
    if |parts| == 1 {
      SplitOnFree(parts[0], c);
    } else if |parts[0]| == 0 {
      JoinCons(parts[0], parts[1..], [c]);
      assert Join(parts, [c]) == [c] + Join(parts[1..], [c]);
      assert Join(parts, [c])[1..] == Join(parts[1..], [c]);
      SplitOnJoin(parts[1..], c);
      assert [[]] + parts[1..] == parts;
    } else {
      var tail := [parts[0][1..]] + parts[1..];
      JoinCons(parts[0], parts[1..], [c]);
      JoinCons(parts[0][1..], parts[1..], [c]);
      assert Join(parts, [c])[1..] == Join(tail, [c]);
      SplitOnJoin(tail, c);
      assert Join(parts, [c])[0] == parts[0][0];
      assert tail[1..] == parts[1..];
      assert [parts[0][0]] + parts[0][1..] == parts[0];
      assert [[parts[0][0]] + tail[0]] + tail[1..] == parts;
    }
  }

  lemma {:induction false} SplitOnFree(s: string, c: char)
    requires forall j :: 0 <= j < |s| ==> s[j] != c
    ensures SplitOn(s, c) == [s]
    decreases |s|
  {
    if |s| > 0 {
      SplitOnFree(s[1..], c);
      assert [s[0]] + s[1..] == s;
    }
  }

  /** Python's `str.title()` on ASCII: a letter is upper-cased when it does not
      follow a letter and lower-cased when it does; other characters are kept. */
  function TitleFrom(s: string, afterLetter: bool): (r: string)
    ensures |r| == |s|
    ensures forall i :: 0 <= i < |s| ==> (IsLetter(r[i]) <==> IsLetter(s[i])) && (!IsLetter(s[i]) ==> r[i] == s[i])
  {
    if |s| == 0 then []
    else
      var c := if !IsLetter(s[0]) then s[0] else if afterLetter then LowerChar(s[0]) else UpperChar(s[0]);
      [c] + TitleFrom(s[1..], IsLetter(s[0]))
  }

  function Title(s: string): string {
    TitleFrom(s, false)
  }

  /** Title-casing changes only the case of letters. */
  lemma {:induction false} LowerTitleFrom(s: string, afterLetter: bool)
    ensures Lower(TitleFrom(s, afterLetter)) == Lower(s)
    decreases |s|
  {
    if |s| > 0 {
      LowerTitleFrom(s[1..], IsLetter(s[0]));
      var t := TitleFrom(s, afterLetter);
      assert LowerChar(t[0]) == LowerChar(s[0]);
      assert t[1..] == TitleFrom(s[1..], IsLetter(s[0]));
    }
  }

  /** Every letter is upper-case at the start of a word and lower-case inside it;
      `afterLetter` says whether the text is preceded by a letter. */
  predicate TitledAfter(s: string, afterLetter: bool) {
    forall i {:trigger CasedAt(s, i, afterLetter)} :: 0 <= i < |s| && IsLetter(s[i]) ==> CasedAt(s, i, afterLetter)
  }

  /** The letter at `i` has the case its position in a word calls for. */
  predicate CasedAt(s: string, i: nat, afterLetter: bool)
    requires i < |s|
  {
    if (if i == 0 then afterLetter else IsLetter(s[i - 1])) then IsLower(s[i]) else IsUpper(s[i])
  }

  predicate IsTitled(s: string) {
    TitledAfter(s, false)
  }

  lemma {:induction false} TitleFromTitled(s: string, afterLetter: bool)
    ensures TitledAfter(TitleFrom(s, afterLetter), afterLetter)
    decreases |s|
  {
    if |s| > 0 {
      var r := TitleFrom(s, afterLetter);
      var t := TitleFrom(s[1..], IsLetter(s[0]));
      TitleFromTitled(s[1..], IsLetter(s[0]));
      assert r[1..] == t;
      forall i | 1 <= i < |r| && IsLetter(r[i])
        ensures CasedAt(r, i, afterLetter)
      {
        assert CasedAt(t, i - 1, IsLetter(s[0]));
        assert r[i] == t[i - 1];
        assert i - 1 == 0 ==> (IsLetter(r[i - 1]) <==> IsLetter(s[0]));
        assert i - 1 > 0 ==> r[i - 1] == t[i - 2];
      }
    }
  }

  lemma TitleIsTitled(s: string)
    ensures IsTitled(Title(s))
  {
    TitleFromTitled(s, false);
  }

  /** Title-casing leaves whitespace where it was, so it keeps single spacing
      and unpadded ends. */
  lemma TitleKeepsSpaces(s: string)
    requires SingleSpaced(s) && Unpadded(s)
    ensures SingleSpaced(Title(s)) && Unpadded(Title(s))
  {
    var r := Title(s);
    assert forall i :: 0 <= i < |r| ==> (IsSpace(r[i]) <==> IsSpace(s[i])) && (IsSpace(r[i]) ==> r[i] == s[i]);
  }

  /** Title-casing already titled text changes nothing. */
  lemma {:induction false} TitleFromFixed(s: string, afterLetter: bool)
    requires TitledAfter(s, afterLetter)
    ensures TitleFrom(s, afterLetter) == s
    decreases |s|
  {
    if |s| > 0 {
      var t := s[1..];
      assert TitledAfter(t, IsLetter(s[0])) by {
        forall i | 0 <= i < |t| && IsLetter(t[i])
          ensures CasedAt(t, i, IsLetter(s[0]))
        {
          assert CasedAt(s, i + 1, afterLetter);
          assert t[i] == s[i + 1];
          assert i > 0 ==> t[i - 1] == s[i];
        }
      }
      TitleFromFixed(t, IsLetter(s[0]));
      assert IsLetter(s[0]) ==> CasedAt(s, 0, afterLetter);
      assert TitleFrom(s, afterLetter)[0] == s[0];
      assert [s[0]] + t == s;
    }
  }

  /** `re.sub(r'\s+', ' ', s)`: every maximal whitespace run becomes one space. */
  function Collapse(s: string): (r: string)
    ensures |r| <= |s|
    decreases |s|
  {
    if |s| == 0 then []
    else if IsSpace(s[0]) then [' '] + Collapse(LStrip(s[1..]))
    else [s[0]] + Collapse(s[1..])
  }

  /** Whitespace appears only as single spaces between other characters. */
  predicate SingleSpaced(s: string) {
    forall i :: 0 <= i < |s| && IsSpace(s[i]) ==> s[i] == ' ' && (i + 1 < |s| ==> !IsSpace(s[i + 1]))
  }

  lemma {:induction false} CollapseShape(s: string)
    ensures SingleSpaced(Collapse(s))
    ensures |s| > 0 ==> |Collapse(s)| > 0 && (IsSpace(Collapse(s)[0]) <==> IsSpace(s[0]))
    ensures |s| > 0 && !IsSpace(s[|s| - 1]) ==> !IsSpace(Collapse(s)[|Collapse(s)| - 1])
    decreases |s|
  {
    if |s| > 0 {
      if IsSpace(s[0]) {
        var t := LStrip(s[1..]);
        CollapseShape(t);
        if |t| > 0 {
          assert t[|t| - 1] == s[|s| - 1];
        }
      } else {
        CollapseShape(s[1..]);
      }
    }
  }

  lemma {:induction false} CollapseFixed(s: string)
    requires SingleSpaced(s)
    ensures Collapse(s) == s
    decreases |s|
  {
    if |s| > 0 {
      SingleSpacedTail(s);
      if IsSpace(s[0]) {
        assert LStrip(s[1..]) == s[1..];
      }
      CollapseFixed(s[1..]);
    }
  }

  lemma SingleSpacedTail(s: string)
    requires |s| > 0 && SingleSpaced(s)
    ensures SingleSpaced(s[1..])
  {
    forall i | 0 <= i < |s[1..]| && IsSpace(s[1..][i])
      ensures s[1..][i] == ' ' && (i + 1 < |s[1..]| ==> !IsSpace(s[1..][i + 1]))
    {
      assert s[1..][i] == s[i + 1];
    }
  }

  /** Decimal rendering of a natural number (`str(n)`). */
  function NatToString(n: nat): (r: string)
    ensures |r| > 0
    ensures forall i :: 0 <= i < |r| ==> '0' <= r[i] <= '9'
  {
    var d := ['0' + (n % 10) as char];
    if n < 10 then d else NatToString(n / 10) + d
  }

  /** Decimal rendering of an integer (`str(i)`). */
  function IntToString(i: int): string {
    if i < 0 then "-" + NatToString(-i) else NatToString(i)
  }

  /** `s[:n]` */
  function Prefix(s: string, n: nat): (r: string)
    ensures |r| == (if |s| <= n then |s| else n)
    ensures r == s[..|r|]
  {
    if |s| <= n then s else s[..n]
  }

  /** `s[:n] + "..." if len(s) > n else s`: the system's truncation idiom. */
  function Truncate(s: string, n: nat): (r: string)
    ensures |s| <= n ==> r == s
    ensures |s| > n ==> r == s[..n] + "..."
    ensures |r| <= n + 3
  {
    if |s| > n then s[..n] + "..." else s
  }
}
