/** Text as the original handles it: lines, surrounding whitespace, and newline normalization. */
module Text {

  // ---- whitespace -------------------------------------------------------------------------

  /** The characters that stripping removes. */
  predicate IsSpace(c: char) {
    || 0x09 <= c as int <= 0x0D
    || 0x1C <= c as int <= 0x20
    || c as int in {0x85, 0xA0, 0x1680, 0x2028, 0x2029, 0x202F, 0x205F, 0x3000}
    || 0x2000 <= c as int <= 0x200A
  }

  /** How many whitespace characters the text starts with. */
  function Lead(t: string): (n: nat)
    ensures n <= |t|
    ensures forall i :: 0 <= i < n ==> IsSpace(t[i])
    ensures n < |t| ==> !IsSpace(t[n])
  {
    if t == "" || !IsSpace(t[0]) then 0 else 1 + Lead(t[1..])
  }

  /** Where the text ends once trailing whitespace is dropped. */
  function End(t: string): (n: nat)
    ensures n <= |t|
    ensures forall i :: n <= i < |t| ==> IsSpace(t[i])
    ensures n > 0 ==> !IsSpace(t[n - 1])
  {
    if t == "" || !IsSpace(t[|t| - 1]) then |t| else End(t[..|t| - 1])
  }

  function Strip(t: string): (s: string)
    ensures s != "" ==> !IsSpace(s[0]) && !IsSpace(s[|s| - 1])
  {
    if Lead(t) >= End(t) then "" else t[Lead(t)..End(t)]
  }

  predicate Stripped(t: string) {
    t != "" ==> !IsSpace(t[0]) && !IsSpace(t[|t| - 1])
  }

  predicate AllSpace(t: string) {
    forall i :: 0 <= i < |t| ==> IsSpace(t[i])
  }

  /** Stripping removes exactly the surrounding whitespace. */
  lemma StripIs(before: string, core: string, after: string)
    requires AllSpace(before) && Stripped(core) && AllSpace(after)
    ensures Strip(before + core + after) == core
  {
    var t := before + core + after;
    if core == "" {
      assert AllSpace(t);
      assert Lead(t) == |t|;
    } else {
      assert t[|before|] == core[0] && t[|before| + |core| - 1] == core[|core| - 1];
      assert Lead(t) == |before|;
      assert End(t) == |before| + |core| by {
        assert forall i :: |before| + |core| <= i < |t| ==> t[i] == after[i - |before| - |core|];
      }
    }
  }

  lemma StripStripped(t: string)
    requires Stripped(t)
    ensures Strip(t) == t
  {
    StripIs("", t, "");
    assert "" + t + "" == t;
  }

  /** Two visible characters keep everything between them. */
  lemma StripKeepsBetween(t: string, i: nat, j: nat)
    requires i <= j < |t| && !IsSpace(t[i]) && !IsSpace(t[j])
    ensures |Strip(t)| >= j + 1 - i
  {
  }

  lemma StripKeepsChars(t: string, c: char)
    requires c !in t
    ensures c !in Strip(t)
  {
  }

  // ---- lines --------------------------------------------------------------------------------

  function Split(t: string): (lines: seq<string>)
    ensures lines != []
    ensures forall l :: l in lines ==> '\n' !in l
  {
    if t == "" then [""]
    else if t[0] == '\n' then [""] + Split(t[1..])
    else
      var rest := Split(t[1..]);
      assert forall l :: l in rest[1..] ==> l in rest;
      [[t[0]] + rest[0]] + rest[1..]
  }

  function Join(lines: seq<string>): string {
    if lines == [] then ""
    else if |lines| == 1 then lines[0]
    else lines[0] + "\n" + Join(lines[1..])
  }

  lemma {:induction false} JoinSplit(t: string)
    ensures Join(Split(t)) == t
  {
    if t != "" {
      JoinSplit(t[1..]);
      var rest := Split(t[1..]);
      if t[0] == '\n' {
        assert Split(t)[1..] == rest;
        assert t == "" + "\n" + t[1..];
      } else {
        assert Split(t)[1..] == rest[1..];
        if |rest| > 1 {
          assert Join(Split(t)) == [t[0]] + (rest[0] + "\n" + Join(rest[1..]));
        }
        assert t == [t[0]] + t[1..];
      }
    }
  }

  lemma {:induction false} SplitFirst(a: string, rest: string)
    requires '\n' !in a
    ensures Split(a + "\n" + rest) == [a] + Split(rest)
  {
    var t := a + "\n" + rest;
    if a == "" {
      assert t[1..] == rest;
    } else {
      assert t[1..] == a[1..] + "\n" + rest;
      SplitFirst(a[1..], rest);
      assert [a[0]] + a[1..] == a;
    }
  }

  lemma {:induction false} SplitOneLine(a: string)
    requires '\n' !in a
    ensures Split(a) == [a]
  {
    if a != "" {
      SplitOneLine(a[1..]);
      assert [a[0]] + a[1..] == a;
    }
  }

  lemma {:induction false} SplitJoin(lines: seq<string>)
    requires lines != [] && forall l :: l in lines ==> '\n' !in l
    ensures Split(Join(lines)) == lines
  {
    if |lines| == 1 {
      SplitOneLine(lines[0]);
    } else {
      SplitJoin(lines[1..]);
      SplitFirst(lines[0], Join(lines[1..]));
      assert lines[0] + "\n" + Join(lines[1..]) == Join(lines);
    }
  }

  lemma {:induction false} JoinAppend(a: seq<string>, b: seq<string>)
    requires a != [] && b != []
    ensures Join(a + b) == Join(a) + "\n" + Join(b)
  {
    if |a| == 1 {
      assert (a + b)[1..] == b;
    } else {
      JoinAppend(a[1..], b);
      assert (a + b)[1..] == a[1..] + b;
    }
  }

  predicate StartsWith(t: string, prefix: string) {
    |prefix| <= |t| && t[..|prefix|] == prefix
  }

  // ---- newline normalization -------------------------------------------------------------------

  /** Carriage returns, alone or before a newline, become one newline. */
  function NormalizeNewlines(t: string): (r: string)
    ensures '\r' !in r
  {
    if t == "" then ""
    else if t[0] == '\r' then
      ['\n'] + NormalizeNewlines(if |t| > 1 && t[1] == '\n' then t[2..] else t[1..])
    else [t[0]] + NormalizeNewlines(t[1..])
  }

  lemma {:induction false} NormalizedStays(t: string)
    requires '\r' !in t
    ensures NormalizeNewlines(t) == t
  {
    if t != "" {
      NormalizedStays(t[1..]);
      assert t == [t[0]] + t[1..];
    }
  }

  function ReplaceCrLf(t: string): string {
    if |t| < 2 then t
    else if t[0] == '\r' && t[1] == '\n' then ['\n'] + ReplaceCrLf(t[2..])
    else [t[0]] + ReplaceCrLf(t[1..])
  }

  function ReplaceCr(t: string): string {
    if t == "" then "" else [if t[0] == '\r' then '\n' else t[0]] + ReplaceCr(t[1..])
  }

  /** The one pass does what replacing pairs first and single carriage returns after does. */
  lemma {:induction false} NormalizesInTwoPasses(t: string)
    ensures NormalizeNewlines(t) == ReplaceCr(ReplaceCrLf(t))
  {
    if |t| >= 2 && t[0] == '\r' && t[1] == '\n' {
      NormalizesInTwoPasses(t[2..]);
    } else if |t| >= 2 {
      NormalizesInTwoPasses(t[1..]);
    } else if |t| == 1 {
      assert t[1..] == "";
    }
  }
}
