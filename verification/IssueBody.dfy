/**
 * Issue bodies: sections are rendered under `### ` headings and read back by a parser that
 * ignores headings inside fenced code (github_issues.py). A fence opens and closes as in
 * section 4.5 of CommonMark 0.31, except that what follows opening backticks is not looked at.
 */
module IssueBody {
  import opened Common
  import opened Text

  const NO_RESPONSE := "_No response_"

  const KNOWN_SECTIONS: seq<string> := [
    "Summary", "What", "Why", "Pros", "Cons", "Context", "Assumptions", "Plan", "Spec", "Reference",
    "Branch", "Priority", "Effort", "Phase", "Test Coverage", "Security Review", "UI Review", "Legacy ID"]

  const H3 := "### "

  // ---- fences and headings ---------------------------------------------------------------

  datatype Fence = Fence(mark: char, length: nat)

  /** How many characters `c` the text starts with. */
  function RunOf(c: char, t: string): (n: nat)
    ensures n <= |t| && forall i :: 0 <= i < n ==> t[i] == c
    ensures n < |t| ==> t[n] != c
  {
    if t == "" || t[0] != c then 0 else 1 + RunOf(c, t[1..])
  }

  /** A fence delimiter: at most three spaces, then three or more backticks or tildes, then anything. */
  function FenceOf(line: string): Option<(Fence, string)> {
    var indent := RunOf(' ', line);
    var rest := line[indent..];
    if indent > 3 || rest == "" || rest[0] !in {'`', '~'} || RunOf(rest[0], rest) < 3 then None
    else Some((Fence(rest[0], RunOf(rest[0], rest)), rest[RunOf(rest[0], rest)..]))
  }

  /** The fence state after one line. */
  function FenceAfterLine(fence: Option<Fence>, line: string): Option<Fence> {
    match (fence, FenceOf(line))
    case (None, None) => None
    case (None, Some((f, _))) => Some(f)
    case (Some(open), None) => fence
    case (Some(open), Some((f, tail))) =>
      if f.mark == open.mark && f.length >= open.length && Strip(tail) == "" then None else fence
  }

  function FenceAfter(fence: Option<Fence>, lines: seq<string>): Option<Fence> {
    if lines == [] then fence else FenceAfterLine(FenceAfter(fence, lines[..|lines| - 1]), lines[|lines| - 1])
  }

  /** The heading text of a line, where it is a level-three heading. */
  function HeadingOf(line: string): Option<string> {
    if StartsWith(line, H3) && |line| > 4 then Some(Strip(line[4..])) else None
  }

  // ---- the parser ----------------------------------------------------------------------------

  type Sections = map<string, seq<string>>

  datatype Scan = Scan(sections: Sections, current: Option<string>, buffer: seq<string>, fence: Option<Fence>)

  const START := Scan(map[], None, [], None)

  function Flushed(s: Scan): Sections {
    var value := Strip(Join(s.buffer));
    if s.current.None? || value == "" || value == NO_RESPONSE then s.sections
    else
      var earlier := if s.current.value in s.sections then s.sections[s.current.value] else [];
      s.sections[s.current.value := earlier + [value]]
  }

  function ScanLine(known: seq<string>, s: Scan, line: string): Scan {
    var heading := HeadingOf(line);
    if s.fence.None? && FenceOf(line).None? && heading.Some? then
      Scan(Flushed(s), if heading.value in known then heading else None, [], None)
    else
      Scan(s.sections, s.current, if s.current.Some? then s.buffer + [line] else s.buffer,
           FenceAfterLine(s.fence, line))
  }

  function ScanLines(known: seq<string>, s: Scan, lines: seq<string>): Scan {
    if lines == [] then s else ScanLine(known, ScanLines(known, s, lines[..|lines| - 1]), lines[|lines| - 1])
  }

  /** What parsing yields; an embedded plan, where one starts, is cut off first. */
  function Parsed(known: seq<string>, body: string, plan: Option<nat>): Sections {
    var text := NormalizeNewlines(body);
    var kept := if plan.Some? && plan.value <= |text| then text[..plan.value] else text;
    Flushed(ScanLines(known, START, Split(kept)))
  }

  method ParseIssueBody(body: string, plan: Option<nat>) returns (sections: Sections)
    ensures sections == Parsed(KNOWN_SECTIONS, body, plan)
  {
    sections := ParseSections(KNOWN_SECTIONS, body, plan);
  }

  method ParseSections(known: seq<string>, body: string, plan: Option<nat>) returns (sections: Sections)
    ensures sections == Parsed(known, body, plan)
  {
    var text := NormalizeNewlines(body);
    if plan.Some? && plan.value <= |text| {
      text := text[..plan.value];
    }
    var lines := Split(text);
    sections := map[];
    var current: Option<string>, buffer: seq<string>, fence: Option<Fence> := None, [], None;
    for i := 0 to |lines|
      invariant ScanLines(known, START, lines[..i]) == Scan(sections, current, buffer, fence)
    {
      var line := lines[i];
      assert lines[..i + 1][..i] == lines[..i];
      var delimiter := FenceOf(line);
      if fence.None? {
        if delimiter.Some? {
          fence := Some(delimiter.value.0);
        } else {
          var heading := HeadingOf(line);
          if heading.Some? {
            sections := Flushed(Scan(sections, current, buffer, fence));
            current := if heading.value in known then heading else None;
            buffer := [];
            continue;
          }
        }
      } else if delimiter.Some? && delimiter.value.0.mark == fence.value.mark
                && delimiter.value.0.length >= fence.value.length && Strip(delimiter.value.1) == "" {
        fence := None;
      }
      if current.Some? {
        buffer := buffer + [line];
      }
    }
    assert lines[..|lines|] == lines;
    sections := Flushed(Scan(sections, current, buffer, fence));
  }

  // ---- the printer -----------------------------------------------------------------------------

  type Fields = map<string, Option<string>>

  datatype RenderError = UnknownSections | ContainsHeading

  datatype Block = Block(section: string, value: string)

  /** A section's value as it is printed, before the placeholder. */
  function ValueOf(fields: Fields, section: string): string {
    if section in fields && fields[section].Some? then Strip(NormalizeNewlines(fields[section].value)) else ""
  }

  predicate HasHeading(value: string) {
    exists l :: l in Split(value) && StartsWith(l, H3)
  }

  predicate Prints(fields: Fields, includeEmpty: bool, section: string) {
    && !(section == "Plan" && section !in fields)
    && (ValueOf(fields, section) != "" || includeEmpty)
  }

  function BlockOf(fields: Fields, section: string): Block {
    Block(section, if ValueOf(fields, section) == "" then NO_RESPONSE else ValueOf(fields, section))
  }

  /** The blocks of these sections, in order. */
  function Blocks(fields: Fields, includeEmpty: bool, known: seq<string>): seq<Block> {
    if known == [] then []
    else
      var n := |known| - 1;
      Blocks(fields, includeEmpty, known[..n]) +
      if Prints(fields, includeEmpty, known[n]) then [BlockOf(fields, known[n])] else []
  }

  function BlockText(b: Block): string {
    H3 + b.section + "\n\n" + b.value + "\n"
  }

  function Texts(blocks: seq<Block>): (r: seq<string>)
    ensures |r| == |blocks| && forall i :: 0 <= i < |r| ==> r[i] == BlockText(blocks[i])
  {
    seq(|blocks|, i requires 0 <= i < |blocks| => BlockText(blocks[i]))
  }

  /** Every field is a known section whose value holds no level-three heading. */
  predicate Renders(fields: Fields, known: seq<string>) {
    && (forall s :: s in fields ==> s in known)
    && (forall s :: s in fields ==> !HasHeading(ValueOf(fields, s)))
  }

  /** The printed text of one section, or None where it is left out. */
  function Printing(fields: Fields, includeEmpty: bool, section: string): (r: seq<string>)
    ensures r == Texts(if Prints(fields, includeEmpty, section) then [BlockOf(fields, section)] else [])
  {
    if Prints(fields, includeEmpty, section) then [BlockText(BlockOf(fields, section))] else []
  }

  lemma PrintOneMore(fields: Fields, includeEmpty: bool, known: seq<string>, n: nat)
    requires n < |known|
    ensures Texts(Blocks(fields, includeEmpty, known[..n + 1])) ==
      Texts(Blocks(fields, includeEmpty, known[..n])) + Printing(fields, includeEmpty, known[n])
  {
    assert known[..n + 1][..n] == known[..n];
  }

  /** Prints one section, unless its value holds a heading. */
  method RenderSection(fields: Fields, includeEmpty: bool, section: string) returns (r: Option<seq<string>>)
    ensures r.None? <==> HasHeading(ValueOf(fields, section))
    ensures r.Some? ==> r.value == Printing(fields, includeEmpty, section)
  {
    EmptyHasNoHeading();
    if section == "Plan" && section !in fields {
      return Some([]);
    }
    var value := ValueOf(fields, section);
    if HasHeading(value) {
      return None;
    }
    if value == "" {
      if !includeEmpty {
        return Some([]);
      }
      value := NO_RESPONSE;
    }
    r := Some([BlockText(Block(section, value))]);
  }

  method RenderSections(fields: Fields, includeEmpty: bool, known: seq<string>) returns (r: Result<string, RenderError>)
    ensures r.Success? <==> Renders(fields, known)
    ensures r.Success? ==> r.value == Join(Texts(Blocks(fields, includeEmpty, known)))
    ensures r == Failure(UnknownSections) <==> exists s :: s in fields && s !in known
  {
    if exists s :: s in fields && s !in known {
      return Failure(UnknownSections);
    }
    var blocks: seq<string> := [];
    for n := 0 to |known|
      invariant blocks == Texts(Blocks(fields, includeEmpty, known[..n]))
      invariant forall s :: s in known[..n] ==> !HasHeading(ValueOf(fields, s))
    {
      var printed := RenderSection(fields, includeEmpty, known[n]);
      if printed.None? {
        AbsentHasNoHeading(fields, known[n]);
        return Failure(ContainsHeading);
      }
      PrintOneMore(fields, includeEmpty, known, n);
      assert known[..n + 1] == known[..n] + [known[n]];
      blocks := blocks + printed.value;
    }
    assert known[..|known|] == known;
    r := Success(Join(blocks));
  }

  lemma AbsentHasNoHeading(fields: Fields, section: string)
    ensures section !in fields ==> !HasHeading(ValueOf(fields, section))
  {
    EmptyHasNoHeading();
  }

  method RenderIssueBody(fields: Fields, includeEmpty: bool) returns (r: Result<string, RenderError>)
    ensures r.Success? <==> Renders(fields, KNOWN_SECTIONS)
    ensures r.Success? ==> r.value == Join(Texts(Blocks(fields, includeEmpty, KNOWN_SECTIONS)))
    ensures r == Failure(UnknownSections) <==> exists s :: s in fields && s !in KNOWN_SECTIONS
  {
    r := RenderSections(fields, includeEmpty, KNOWN_SECTIONS);
  }

  lemma EmptyHasNoHeading()
    ensures !HasHeading("")
  {
    assert Split("") == [""];
  }
}
