/**
 * The canonical text of an issue, hashed to notice any change, and its reader
 * (github_issues.py): what printing keeps, reading gives back.
 */
module IssueSnapshot {
  import opened Common
  import opened DecimalText
  import opened Text

  const HEADER := "tpo-issue-snapshot/1"
  const REPO := "repo: "
  const NUMBER := "number: "
  const TITLE := "title: "

  // ---- printing --------------------------------------------------------------------------------

  datatype Issue = Issue(repo: string, number: int, title: string, body: string)

  datatype FormatError = NegativeNumber | MultiLine | NoFinalNewline | BadHeader | MissingField | BadNumber

  function DropNewlines(t: string): (r: string)
    ensures r == "" || r[|r| - 1] != '\n'
    ensures r <= t
  {
    if t != "" && t[|t| - 1] == '\n' then DropNewlines(t[..|t| - 1]) else t
  }

  function NormalizeBody(body: string): string {
    DropNewlines(NormalizeNewlines(body))
  }

  predicate SingleLine(t: string) {
    '\r' !in t && '\n' !in t
  }

  function Line(line: string, rest: string): string {
    line + "\n" + rest
  }

  /** These lines, and then the rest. */
  function Lines(lines: seq<string>, rest: string): string {
    if lines == [] then rest else Line(lines[0], Lines(lines[1..], rest))
  }

  /** The four lines before the blank one. */
  function Head(repo: string, number: nat, title: string): seq<string> {
    [HEADER, REPO + repo, NUMBER + Decimal(number), TITLE + title]
  }

  function Layout(repo: string, number: nat, title: string, body: string): string {
    Lines(Head(repo, number, title) + [""], body) + "\n"
  }

  function Canonical(i: Issue): Result<string, FormatError> {
    if i.number < 0 then Failure(NegativeNumber)
    else if !SingleLine(i.repo) || !SingleLine(i.title) then Failure(MultiLine)
    else Success(Layout(i.repo, i.number, Strip(i.title), NormalizeBody(i.body)))
  }

  // ---- reading -----------------------------------------------------------------------------------

  /** Splits at the first `n` newlines. */
  function SplitAt(t: string, n: nat): (parts: seq<string>)
    ensures 1 <= |parts| <= n + 1
    decreases t
  {
    if n == 0 || t == "" then [t]
    else if t[0] == '\n' then [""] + SplitAt(t[1..], n - 1)
    else
      var rest := SplitAt(t[1..], n);
      [[t[0]] + rest[0]] + rest[1..]
  }

  function Field(line: string, prefix: string): Option<string> {
    if StartsWith(line, prefix) then Some(line[|prefix|..]) else None
  }

  function Parts(snapshot: string): seq<string>
    requires snapshot != ""
  {
    SplitAt(snapshot[..|snapshot| - 1], 5)
  }

  function Read(snapshot: string): Result<Issue, FormatError> {
    if snapshot == "" || snapshot[|snapshot| - 1] != '\n' then Failure(NoFinalNewline)
    else
      var parts := Parts(snapshot);
      if |parts| < 5 || parts[0] != HEADER || parts[4] != "" then Failure(BadHeader)
      else
        var repo, number, title := Field(parts[1], REPO), Field(parts[2], NUMBER), Field(parts[3], TITLE);
        if repo.None? || number.None? || title.None? then Failure(MissingField)
        else if !IsNumber(number.value) then Failure(BadNumber)
        else Success(Issue(repo.value, Value(number.value), title.value, if |parts| == 6 then parts[5] else ""))
  }

  // ---- reading what was printed -------------------------------------------------------------------

  lemma {:induction false} SplitOnce(line: string, rest: string, n: nat)
    requires '\n' !in line && n > 0
    ensures SplitAt(Line(line, rest), n) == [line] + SplitAt(rest, n - 1)
  {
    var t := Line(line, rest);
    if line == "" {
      assert t[1..] == rest;
    } else {
      assert t[1..] == Line(line[1..], rest);
      SplitOnce(line[1..], rest, n);
      assert [line[0]] + line[1..] == line;
    }
  }

  lemma {:induction false} SplitLines(lines: seq<string>, rest: string, n: nat)
    requires forall l :: l in lines ==> '\n' !in l
    ensures SplitAt(Lines(lines, rest), |lines| + n) == lines + SplitAt(rest, n)
  {
    if lines == [] {
      assert lines + SplitAt(rest, n) == SplitAt(rest, n);
    } else {
      SplitLines(lines[1..], rest, n);
      SplitLinesStep(lines, Lines(lines[1..], rest), SplitAt(rest, n), |lines| + n);
    }
  }

  lemma SplitLinesStep(lines: seq<string>, after: string, parts: seq<string>, n: nat)
    requires lines != [] && '\n' !in lines[0] && n > 0
    requires SplitAt(after, n - 1) == lines[1..] + parts
    ensures SplitAt(Line(lines[0], after), n) == lines + parts
  {
    SplitOnce(lines[0], after, n);
    FirstThenRest(lines, parts);
  }

  lemma FirstThenRest<T>(s: seq<T>, after: seq<T>)
    requires s != []
    ensures [s[0]] + (s[1..] + after) == s + after
  {
  }

  lemma DecimalIsLine(n: nat)
    ensures '\n' !in Decimal(n)
  {
    DecimalReads(n);
  }

  lemma PrefixComesOff(prefix: string, value: string)
    ensures Field(prefix + value, prefix) == Some(value)
  {
    assert (prefix + value)[..|prefix|] == prefix && (prefix + value)[|prefix|..] == value;
  }

  lemma HeadIsLines(repo: string, number: nat, title: string)
    requires '\n' !in repo && '\n' !in title
    ensures forall l :: l in Head(repo, number, title) ==> '\n' !in l
  {
    DecimalIsLine(number);
  }

  lemma DropLast(t: string)
    ensures (t + "\n")[..|t + "\n"| - 1] == t && (t + "\n")[|t + "\n"| - 1] == '\n'
  {
  }

  lemma LayoutParts(repo: string, number: nat, title: string, body: string)
    requires '\n' !in repo && '\n' !in title
    ensures Parts(Layout(repo, number, title, body)) == Head(repo, number, title) + ["", body]
  {
    var lines := Head(repo, number, title) + [""];
    HeadIsLines(repo, number, title);
    SplitLines(lines, body, 0);
    DropLast(Lines(lines, body));
    assert SplitAt(body, 0) == [body];
  }

  lemma HeadReads(repo: string, number: nat, title: string)
    ensures var h := Head(repo, number, title);
      && Field(h[1], REPO) == Some(repo) && Field(h[3], TITLE) == Some(title)
      && Field(h[2], NUMBER) == Some(Decimal(number)) && IsNumber(Decimal(number)) && Value(Decimal(number)) == number
  {
    PrefixComesOff(REPO, repo);
    PrefixComesOff(NUMBER, Decimal(number));
    PrefixComesOff(TITLE, title);
    DecimalReads(number);
  }

  lemma LayoutReads(repo: string, number: nat, title: string, body: string)
    requires '\n' !in repo && '\n' !in title
    ensures Read(Layout(repo, number, title, body)) == Success(Issue(repo, number, title, body))
  {
    LayoutParts(repo, number, title, body);
    DropLast(Lines(Head(repo, number, title) + [""], body));
    HeadReads(repo, number, title);
  }

  /** Every accepted issue comes back: its repository and number, its stripped title, its normalized body. */
  lemma ReadInvertsCanonical(i: Issue)
    requires Canonical(i).Success?
    ensures Read(Canonical(i).value) == Success(Issue(i.repo, i.number, Strip(i.title), NormalizeBody(i.body)))
  {
    StripKeepsChars(i.title, '\n');
    LayoutReads(i.repo, i.number, Strip(i.title), NormalizeBody(i.body));
  }

  /** Equal snapshots mean equal issues, up to surrounding title whitespace and body line ends. */
  lemma CanonicalIsInjective(i: Issue, j: Issue)
    requires Canonical(i).Success? && Canonical(j).Success?
    ensures Canonical(i).value == Canonical(j).value <==>
      && i.repo == j.repo && i.number == j.number
      && Strip(i.title) == Strip(j.title) && NormalizeBody(i.body) == NormalizeBody(j.body)
  {
    ReadInvertsCanonical(i);
    ReadInvertsCanonical(j);
  }

  // ---- printing what was read ----------------------------------------------------------------------

  lemma {:induction false} SplitJoins(t: string, n: nat)
    ensures Join(SplitAt(t, n)) == t
  {
    if n > 0 && t != "" {
      if t[0] == '\n' {
        SplitJoins(t[1..], n - 1);
        JoinFirst("", SplitAt(t[1..], n - 1));
        assert t == "" + "\n" + t[1..];
      } else {
        SplitJoins(t[1..], n);
        JoinGrows(t[0], SplitAt(t[1..], n));
        assert t == [t[0]] + t[1..];
      }
    }
  }

  lemma JoinFirst(line: string, rest: seq<string>)
    requires rest != []
    ensures Join([line] + rest) == line + "\n" + Join(rest)
  {
    assert ([line] + rest)[1..] == rest;
  }

  lemma JoinGrows(c: char, lines: seq<string>)
    requires lines != []
    ensures Join([[c] + lines[0]] + lines[1..]) == [c] + Join(lines)
  {
    var grown := [[c] + lines[0]] + lines[1..];
    assert grown[1..] == lines[1..];
    if |lines| > 1 {
      assert [c] + lines[0] + "\n" + Join(lines[1..]) == [c] + (lines[0] + "\n" + Join(lines[1..]));
    }
  }

  lemma {:induction false} LinesJoin(lines: seq<string>, rest: string)
    ensures Join(lines + [rest]) == Lines(lines, rest)
  {
    if lines == [] {
      assert lines + [rest] == [rest];
    } else {
      LinesJoin(lines[1..], rest);
      assert (lines + [rest])[1..] == lines[1..] + [rest];
    }
  }

  lemma FieldComesBack(line: string, prefix: string)
    requires Field(line, prefix).Some?
    ensures line == prefix + Field(line, prefix).value
  {
    assert line == line[..|prefix|] + line[|prefix|..];
  }

  lemma PartsAreHead(snapshot: string)
    requires Read(snapshot).Success?
    ensures var i := Read(snapshot).value; i.number >= 0 && Parts(snapshot)[..4] == Head(i.repo, i.number, i.title)
  {
    var p := Parts(snapshot);
    FieldComesBack(p[1], REPO);
    FieldComesBack(p[2], NUMBER);
    FieldComesBack(p[3], TITLE);
    NumberPrints(Field(p[2], NUMBER).value);
    assert p[..4] == [p[0], p[1], p[2], p[3]];
  }

  lemma PartsJoin(snapshot: string)
    requires snapshot != "" && snapshot[|snapshot| - 1] == '\n'
    ensures snapshot == Join(Parts(snapshot)) + "\n"
  {
    SplitJoins(snapshot[..|snapshot| - 1], 5);
    TakeLast(snapshot);
  }

  lemma SixSplit<T>(p: seq<T>)
    requires |p| == 6
    ensures p == p[..4] + [p[4]] + [p[5]]
  {
  }

  lemma TakeLast(t: string)
    requires t != "" && t[|t| - 1] == '\n'
    ensures t == t[..|t| - 1] + "\n"
  {
  }

  /** With a body line present, the snapshot is laid out exactly as read. */
  lemma SixPartsAreLayout(snapshot: string)
    requires Read(snapshot).Success? && |Parts(snapshot)| == 6
    ensures var i := Read(snapshot).value; i.number >= 0 && snapshot == Layout(i.repo, i.number, i.title, i.body)
  {
    var p := Parts(snapshot);
    PartsJoin(snapshot);
    PartsAreHead(snapshot);
    SixSplit(p);
    LinesJoin(p[..4] + [""], p[5]);
  }

  /** A snapshot that stops right after the blank line. */
  function ShortForm(repo: string, number: nat, title: string): string {
    Lines(Head(repo, number, title), "") + "\n"
  }

  lemma {:induction false} LinesLength(lines: seq<string>)
    ensures |Lines(lines + [""], "")| == |Lines(lines, "")| + 1
  {
    if lines == [] {
      assert lines + [""] == [""] && [""][1..] == [];
    } else {
      LinesLength(lines[1..]);
      assert (lines + [""])[1..] == lines[1..] + [""];
    }
  }

  lemma ShortParts(repo: string, number: nat, title: string)
    requires '\n' !in repo && '\n' !in title
    ensures Parts(ShortForm(repo, number, title)) == Head(repo, number, title) + [""]
  {
    HeadIsLines(repo, number, title);
    SplitLines(Head(repo, number, title), "", 1);
    assert SplitAt("", 1) == [""];
    DropLast(Lines(Head(repo, number, title), ""));
  }

  /** The reader accepts the short form as an issue without a body; printing that gives one character more. */
  lemma ShortFormReadsAsEmptyBody(repo: string, number: nat, title: string)
    requires SingleLine(repo) && SingleLine(title) && Stripped(title)
    ensures Read(ShortForm(repo, number, title)) == Success(Issue(repo, number, title, ""))
    ensures Canonical(Issue(repo, number, title, "")) == Success(Layout(repo, number, title, ""))
    ensures |Layout(repo, number, title, "")| == |ShortForm(repo, number, title)| + 1
  {
    ShortParts(repo, number, title);
    DropLast(Lines(Head(repo, number, title), ""));
    HeadReads(repo, number, title);
    StripStripped(title);
    LinesLength(Head(repo, number, title));
  }

  /**
   * Exactly when printing what was read gives the snapshot back: it has a body line, its title
   * carries no surrounding whitespace, its body is normalized, and no carriage return stands
   * in the repository or the title.
   */
  lemma CanonicalInvertsReadExactly(snapshot: string)
    requires Read(snapshot).Success?
    ensures var i := Read(snapshot).value;
      Canonical(i) == Success(snapshot) <==>
        && |Parts(snapshot)| == 6
        && Strip(i.title) == i.title && NormalizeBody(i.body) == i.body
        && SingleLine(i.repo) && SingleLine(i.title)
  {
    var i := Read(snapshot).value;
    if |Parts(snapshot)| == 6 {
      SixPartsAreLayout(snapshot);
    }
    if Canonical(i) == Success(snapshot) {
      ReadInvertsCanonical(i);
      CanonicalHasSixParts(i);
    }
  }

  lemma CanonicalHasSixParts(i: Issue)
    requires Canonical(i).Success?
    ensures |Parts(Canonical(i).value)| == 6
  {
    StripKeepsChars(i.title, '\n');
    LayoutParts(i.repo, i.number, Strip(i.title), NormalizeBody(i.body));
  }
}
