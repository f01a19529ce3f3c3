/**
 * Printing an issue body and parsing it gives the fields back exactly when every printed
 * section except the last leaves no code fence open.
 */
module IssueRoundTrip {
  import opened Common
  import opened Text
  import opened IssueBody

  // ---- what a fence is ------------------------------------------------------------------------

  function Repeat(c: char, n: nat): (r: string)
    ensures |r| == n && forall i :: 0 <= i < n ==> r[i] == c
  {
    seq(n, _ => c)
  }

  /** The line is so many spaces, so many marks, and a rest that adds no further mark. */
  predicate Spelled(line: string, indent: nat, fence: Fence, tail: string) {
    && line == Repeat(' ', indent) + Repeat(fence.mark, fence.length) + tail
    && (tail != "" ==> tail[0] != fence.mark)
  }

  /** What section 4.5 of CommonMark 0.31 calls a code fence, whatever follows it. */
  predicate IsDelimiter(line: string, indent: nat, fence: Fence, tail: string) {
    indent <= 3 && fence.mark in {'`', '~'} && fence.length >= 3 && Spelled(line, indent, fence, tail)
  }

  lemma {:induction false} RunOfRepeat(c: char, n: nat, rest: string)
    requires rest != "" ==> rest[0] != c
    ensures RunOf(c, Repeat(c, n) + rest) == n
  {
    var t := Repeat(c, n) + rest;
    if n > 0 {
      RunOfRepeat(c, n - 1, rest);
      assert t[1..] == Repeat(c, n - 1) + rest;
    } else {
      assert t == rest;
    }
  }

  /** The delimiters found are exactly those. */
  lemma FenceOfIsDelimiter(line: string)
    ensures FenceOf(line).Some? ==>
      IsDelimiter(line, RunOf(' ', line), FenceOf(line).value.0, FenceOf(line).value.1)
    ensures FenceOf(line).None? ==> forall indent, fence, tail :: !IsDelimiter(line, indent, fence, tail)
  {
    if FenceOf(line).Some? {
      var indent := RunOf(' ', line);
      var (fence, tail) := FenceOf(line).value;
      var rest := line[indent..];
      assert line[..indent] == Repeat(' ', indent);
      assert rest[..fence.length] == Repeat(fence.mark, fence.length);
      assert line == line[..indent] + rest[..fence.length] + tail;
    } else {
      forall indent, fence, tail
        ensures !IsDelimiter(line, indent, fence, tail)
      {
        if IsDelimiter(line, indent, fence, tail) {
          DelimiterIsFound(line, indent, fence, tail);
        }
      }
    }
  }

  lemma DelimiterIsFound(line: string, indent: nat, fence: Fence, tail: string)
    requires IsDelimiter(line, indent, fence, tail)
    ensures FenceOf(line) == Some((fence, tail))
  {
    var rest := Repeat(fence.mark, fence.length) + tail;
    assert rest[0] == fence.mark;
    assert line == Repeat(' ', indent) + rest;
    RunOfRepeat(' ', indent, rest);
    assert line[indent..] == rest;
    RunOfRepeat(fence.mark, fence.length, tail);
    assert rest[fence.length..] == tail;
  }

  /** A closing fence: the same mark, at least as long, and nothing but whitespace after it. */
  ghost predicate ClosesFence(line: string, open: Fence) {
    exists indent, fence, tail ::
      && IsDelimiter(line, indent, fence, tail)
      && fence.mark == open.mark && fence.length >= open.length && Strip(tail) == ""
  }

  lemma ClosingLine(open: Fence, line: string)
    ensures FenceAfterLine(Some(open), line) == if ClosesFence(line, open) then None else Some(open)
  {
    FenceOfIsDelimiter(line);
    if ClosesFence(line, open) {
      var indent, fence, tail :|
        && IsDelimiter(line, indent, fence, tail)
        && fence.mark == open.mark && fence.length >= open.length && Strip(tail) == "";
      DelimiterIsFound(line, indent, fence, tail);
    }
  }

  /** An open fence runs on exactly until its first closing line, or to the end. */
  lemma {:induction false} FenceRunsOn(open: Fence, lines: seq<string>)
    requires forall i :: 0 <= i < |lines| ==> !ClosesFence(lines[i], open)
    ensures FenceAfter(Some(open), lines) == Some(open)
    ensures forall closing :: ClosesFence(closing, open) ==> FenceAfter(Some(open), lines + [closing]) == None
  {
    if lines != [] {
      var n := |lines| - 1;
      FenceRunsOn(open, lines[..n]);
      ClosingLine(open, lines[n]);
    }
    forall closing | ClosesFence(closing, open)
      ensures FenceAfter(Some(open), lines + [closing]) == None
    {
      assert (lines + [closing])[..|lines|] == lines;
      ClosingLine(open, closing);
    }
  }

  // ---- the printed body, line by line --------------------------------------------------------

  function LinesOf(b: Block): (lines: seq<string>)
    ensures lines != []
  {
    [H3 + b.section, ""] + Split(b.value) + [""]
  }

  function AllLines(blocks: seq<Block>): seq<string> {
    if blocks == [] then [] else AllLines(blocks[..|blocks| - 1]) + LinesOf(blocks[|blocks| - 1])
  }

  lemma BlockTextIsLines(b: Block)
    ensures BlockText(b) == Join(LinesOf(b))
  {
    var h := H3 + b.section;
    JoinSplit(b.value);
    JoinAppend(Split(b.value), [""]);
    assert Join([""]) == "";
    JoinAppend([h, ""], Split(b.value) + [""]);
    assert [h, ""] + (Split(b.value) + [""]) == LinesOf(b);
    assert [h, ""][1..] == [""];
    assert Join([h, ""]) == h + "\n" + "";
    assert Join(LinesOf(b)) == h + "\n" + "" + "\n" + (b.value + "\n" + "");
    assert h + "\n" + "" + "\n" + (b.value + "\n" + "") == BlockText(b);
  }

  lemma {:induction false} TextsAreLines(blocks: seq<Block>)
    requires blocks != []
    ensures AllLines(blocks) != [] && Join(Texts(blocks)) == Join(AllLines(blocks))
  {
    var n := |blocks| - 1;
    BlockTextIsLines(blocks[n]);
    if n == 0 {
      assert AllLines(blocks[..0]) == [];
      assert AllLines(blocks) == LinesOf(blocks[0]);
      assert Texts(blocks) == [BlockText(blocks[0])];
    } else {
      TextsAreLines(blocks[..n]);
      assert Texts(blocks) == Texts(blocks[..n]) + [BlockText(blocks[n])];
      JoinAppend(Texts(blocks[..n]), [BlockText(blocks[n])]);
      JoinAppend(AllLines(blocks[..n]), LinesOf(blocks[n]));
    }
  }

  predicate IsLine(l: string) {
    '\n' !in l && '\r' !in l
  }

  /** A block as the printer makes it. */
  predicate Printed(b: Block) {
    && b.section != "" && Stripped(b.section) && IsLine(b.section)
    && b.value != "" && Stripped(b.value) && '\r' !in b.value && !HasHeading(b.value)
  }

  predicate AllKnown(known: seq<string>, blocks: seq<Block>) {
    forall i :: 0 <= i < |blocks| ==> blocks[i].section in known
  }

  predicate AllPrinted(blocks: seq<Block>) {
    && (forall i :: 0 <= i < |blocks| ==> Printed(blocks[i]))
    && (forall i, j :: 0 <= i < j < |blocks| ==> blocks[i].section != blocks[j].section)
  }

  lemma {:induction false} SplitKeepsOut(t: string, c: char)
    requires c !in t
    ensures forall l :: l in Split(t) ==> c !in l
  {
    if t != "" {
      SplitKeepsOut(t[1..], c);
    }
  }

  lemma BlockLines(b: Block)
    requires Printed(b)
    ensures forall l :: l in LinesOf(b) ==> IsLine(l)
  {
    SplitKeepsOut(b.value, '\r');
  }

  lemma {:induction false} BodyLines(blocks: seq<Block>)
    requires AllPrinted(blocks)
    ensures forall l :: l in AllLines(blocks) ==> IsLine(l)
  {
    if blocks != [] {
      var n := |blocks| - 1;
      BodyLines(blocks[..n]);
      BlockLines(blocks[n]);
    }
  }

  lemma {:induction false} JoinKeepsOut(lines: seq<string>, c: char)
    requires c != '\n' && forall l :: l in lines ==> c !in l
    ensures c !in Join(lines)
  {
    if |lines| > 1 {
      JoinKeepsOut(lines[1..], c);
    }
  }

  /** The parser sees exactly the printed lines. */
  lemma ParserSeesLines(blocks: seq<Block>)
    requires AllPrinted(blocks) && blocks != []
    ensures Split(NormalizeNewlines(Join(Texts(blocks)))) == AllLines(blocks)
  {
    TextsAreLines(blocks);
    BodyLines(blocks);
    JoinKeepsOut(AllLines(blocks), '\r');
    NormalizedStays(Join(AllLines(blocks)));
    SplitJoin(AllLines(blocks));
  }

  // ---- scanning ------------------------------------------------------------------------------

  lemma {:induction false} ScanAppend(known: seq<string>, s: Scan, a: seq<string>, b: seq<string>)
    ensures ScanLines(known, s, a + b) == ScanLines(known, ScanLines(known, s, a), b)
  {
    if b == [] {
      assert a + b == a;
    } else {
      var n := |b| - 1;
      ScanAppend(known, s, a, b[..n]);
      assert (a + b)[..|a + b| - 1] == a + b[..n];
    }
  }

  /** Lines without a heading are collected; only the fence state moves. */
  lemma {:induction false} ScanPlain(known: seq<string>, s: Scan, lines: seq<string>)
    requires s.current.Some? && forall l :: l in lines ==> !StartsWith(l, H3)
    ensures ScanLines(known, s, lines) == Scan(s.sections, s.current, s.buffer + lines, FenceAfter(s.fence, lines))
  {
    if lines != [] {
      var n := |lines| - 1;
      ScanPlain(known, s, lines[..n]);
      assert HeadingOf(lines[n]).None?;
      assert s.buffer + lines == s.buffer + lines[..n] + [lines[n]];
    } else {
      assert s.buffer + lines == s.buffer;
    }
  }

  lemma EmptyLineKeepsFence(fence: Option<Fence>)
    ensures FenceAfterLine(fence, "") == fence
  {
    assert FenceOf("").None?;
  }

  /** The lines of a section after its heading, as collected. */
  function Collected(b: Block): seq<string> {
    [""] + Split(b.value) + [""]
  }

  function FenceIn(b: Block): Option<Fence> {
    FenceAfter(None, Split(b.value))
  }

  predicate Closes(b: Block) {
    FenceIn(b).None?
  }

  lemma {:induction false} FenceOverBlank(fence: Option<Fence>, lines: seq<string>)
    ensures FenceAfter(fence, [""] + lines) == FenceAfter(fence, lines)
  {
    if lines == [] {
      EmptyLineKeepsFence(fence);
      assert ([""] + lines)[..0] == [] && [""] + lines == [""];
    } else {
      var n := |lines| - 1;
      FenceOverBlank(fence, lines[..n]);
      assert ([""] + lines)[..|[""] + lines| - 1] == [""] + lines[..n];
    }
  }

  lemma CollectedFence(b: Block)
    ensures FenceAfter(None, Collected(b)) == FenceIn(b)
  {
    FenceOverBlank(None, Split(b.value));
    assert Collected(b)[..|Collected(b)| - 1] == [""] + Split(b.value);
    EmptyLineKeepsFence(FenceIn(b));
  }

  lemma HeadingLine(section: string)
    requires section != "" && Stripped(section)
    ensures HeadingOf(H3 + section) == Some(section) && FenceOf(H3 + section).None?
  {
    StripStripped(section);
    assert (H3 + section)[4..] == section && (H3 + section)[..4] == H3;
    assert RunOf(' ', H3 + section) == 0;
  }

  lemma ScanBlock(known: seq<string>, s: Scan, b: Block)
    requires s.fence.None? && Printed(b) && b.section in known
    ensures ScanLines(known, s, LinesOf(b)) == Scan(Flushed(s), Some(b.section), Collected(b), FenceIn(b))
  {
    HeadingLine(b.section);
    var head := [H3 + b.section];
    HeadThenCollected(b);
    ScanAppend(known, s, head, Collected(b));
    assert head[..0] == [];
    var after := ScanLines(known, s, head);
    assert after == Scan(Flushed(s), Some(b.section), [], None);
    forall l | l in Collected(b)
      ensures !StartsWith(l, H3)
    {
      assert l == "" || l in Split(b.value);
    }
    ScanPlain(known, after, Collected(b));
    assert after.buffer + Collected(b) == Collected(b);
    CollectedFence(b);
  }

  /** A collected section is flushed as its printed value. */
  lemma CollectedText(b: Block)
    requires Printed(b)
    ensures Join(Collected(b)) == "\n" + b.value + "\n"
    ensures Strip(Join(Collected(b))) == b.value
  {
    JoinSplit(b.value);
    JoinAppend(Split(b.value), [""]);
    JoinAppend([""], Split(b.value) + [""]);
    assert [""] + (Split(b.value) + [""]) == Collected(b);
    assert Join([""]) == "";
    assert "" + "\n" + (b.value + "\n" + "") == "\n" + b.value + "\n";
    StripIs("\n", b.value, "\n");
  }

  /** The sections a list of blocks should come back as. */
  function Kept(blocks: seq<Block>): (m: Sections)
    ensures forall s :: s in m ==> exists i :: 0 <= i < |blocks| && blocks[i].section == s
  {
    if blocks == [] then map[]
    else
      var b := blocks[|blocks| - 1];
      var m := Kept(blocks[..|blocks| - 1]);
      if b.value == NO_RESPONSE then m else m[b.section := [b.value]]
  }

  predicate AllClose(blocks: seq<Block>) {
    forall i :: 0 <= i < |blocks| ==> Closes(blocks[i])
  }

  lemma FlushValue(m: Sections, b: Block, fence: Option<Fence>)
    requires Printed(b) && b.section !in m
    ensures Flushed(Scan(m, Some(b.section), Collected(b), fence)) ==
      if b.value == NO_RESPONSE then m else m[b.section := [b.value]]
  {
    assert [] + [b.value] == [b.value];
    CollectedText(b);
  }

  lemma NotYetKept(blocks: seq<Block>)
    requires AllPrinted(blocks) && blocks != []
    ensures blocks[|blocks| - 1].section !in Kept(blocks[..|blocks| - 1])
  {
  }

  lemma FlushBlock(blocks: seq<Block>, fence: Option<Fence>)
    requires AllPrinted(blocks) && blocks != []
    ensures var n := |blocks| - 1;
      Flushed(Scan(Kept(blocks[..n]), Some(blocks[n].section), Collected(blocks[n]), fence)) == Kept(blocks)
  {
    NotYetKept(blocks);
    FlushValue(Kept(blocks[..|blocks| - 1]), blocks[|blocks| - 1], fence);
  }

  /** The scan right after the last of these blocks. */
  function ScanAfter(blocks: seq<Block>): Scan
    requires blocks != []
  {
    var n := |blocks| - 1;
    Scan(Kept(blocks[..n]), Some(blocks[n].section), Collected(blocks[n]), FenceIn(blocks[n]))
  }

  lemma ScanOneMore(known: seq<string>, blocks: seq<Block>)
    requires AllKnown(known, blocks) && AllPrinted(blocks) && blocks != []
    requires var n := |blocks| - 1;
      var s := ScanLines(known, START, AllLines(blocks[..n])); s.fence.None? && Flushed(s) == Kept(blocks[..n])
    ensures ScanLines(known, START, AllLines(blocks)) == ScanAfter(blocks)
  {
    var n := |blocks| - 1;
    ScanAppend(known, START, AllLines(blocks[..n]), LinesOf(blocks[n]));
    ScanBlock(known, ScanLines(known, START, AllLines(blocks[..n])), blocks[n]);
  }

  /** While every fence is closed again, the scan follows the blocks. */
  lemma {:induction false} ScanFollows(known: seq<string>, blocks: seq<Block>)
    requires AllKnown(known, blocks) && AllPrinted(blocks) && blocks != [] && AllClose(blocks[..|blocks| - 1])
    ensures ScanLines(known, START, AllLines(blocks)) == ScanAfter(blocks)
  {
    var n := |blocks| - 1;
    if n > 0 {
      var front := blocks[..n];
      assert front[..n - 1] == blocks[..n - 1];
      assert AllClose(front[..n - 1]) && Closes(front[n - 1]);
      ScanFollows(known, front);
      FlushBlock(front, None);
    } else {
      assert AllLines(blocks[..0]) == [];
    }
    ScanOneMore(known, blocks);
  }

  lemma EmptyBodyIsEmpty(known: seq<string>)
    ensures Parsed(known, "", None) == map[]
  {
    assert Split("") == [""];
    assert [""][..0] == [];
    assert ScanLines(known, START, [""]) == START;
  }

  lemma ParsesAs(known: seq<string>, blocks: seq<Block>)
    requires AllPrinted(blocks) && blocks != []
    ensures Parsed(known, Join(Texts(blocks)), None) == Flushed(ScanLines(known, START, AllLines(blocks)))
  {
    ParserSeesLines(blocks);
  }

  /** With every section but the last closed, parsing gives the blocks back. */
  lemma ClosedComesBack(known: seq<string>, blocks: seq<Block>)
    requires AllKnown(known, blocks) && AllPrinted(blocks) && (blocks != [] ==> AllClose(blocks[..|blocks| - 1]))
    ensures Parsed(known, Join(Texts(blocks)), None) == Kept(blocks)
  {
    if blocks == [] {
      EmptyBodyIsEmpty(known);
      assert Texts(blocks) == [];
    } else {
      ParsesAs(known, blocks);
      ScanFollows(known, blocks);
      FlushBlock(blocks, FenceIn(blocks[|blocks| - 1]));
    }
  }

  // ---- an open fence swallows what follows ------------------------------------------------------

  /** The text of section `s` has grown by at least the line after `own`, or is already filed that way. */
  ghost predicate Swallowed(s: Scan, section: string, own: seq<string>) {
    || (s.current == Some(section) && section !in s.sections && own <= s.buffer)
    || (&& s.current != Some(section)
        && exists b :: own <= b && section in s.sections && s.sections[section] == [Strip(Join(b))])
  }

  ghost predicate Opens(section: string, own: seq<string>) {
    forall b :: own <= b ==> Strip(Join(b)) != "" && Strip(Join(b)) != NO_RESPONSE
  }

  lemma SwallowLine(known: seq<string>, s: Scan, section: string, own: seq<string>, line: string)
    requires Swallowed(s, section, own) && Opens(section, own)
    requires HeadingOf(line) != Some(section)
    ensures Swallowed(ScanLine(known, s, line), section, own)
  {
    if s.current == Some(section) {
      assert Strip(Join(s.buffer)) != "" && Strip(Join(s.buffer)) != NO_RESPONSE;
      assert own <= s.buffer + [line];
    }
  }

  lemma {:induction false} SwallowLines(known: seq<string>, s: Scan, section: string, own: seq<string>,
                                        lines: seq<string>)
    requires Swallowed(s, section, own) && Opens(section, own)
    requires forall l :: l in lines ==> HeadingOf(l) != Some(section)
    ensures Swallowed(ScanLines(known, s, lines), section, own)
  {
    if lines != [] {
      var n := |lines| - 1;
      SwallowLines(known, s, section, own, lines[..n]);
      SwallowLine(known, ScanLines(known, s, lines[..n]), section, own, lines[n]);
    }
  }

  lemma SwallowedIsFiled(s: Scan, section: string, own: seq<string>)
    requires Swallowed(s, section, own) && Opens(section, own)
    ensures section in Flushed(s) && exists b :: own <= b && Flushed(s)[section] == [Strip(Join(b))]
  {
    if s.current == Some(section) {
      assert own <= s.buffer;
    }
  }

  /** The collected lines of a section and the heading line that follows it, swallowed. */
  function Own(b: Block, next: string): seq<string> {
    Collected(b) + [H3 + next]
  }

  /** How the text of a swallowing section starts: its own text, then the next heading. */
  function Grown(value: string): string {
    ("\n" + value + "\n") + "\n" + H3
  }

  lemma OwnText(b: Block, next: string)
    requires Printed(b)
    ensures Join(Own(b, next)) == Grown(b.value) + next
  {
    CollectedText(b);
    JoinAppend(Collected(b), [H3 + next]);
    assert Join([H3 + next]) == H3 + next;
    Regroup3("\n" + b.value + "\n" + "\n", H3, next);
  }

  lemma Regroup3(a: string, b: string, c: string)
    ensures a + (b + c) == a + b + c
  {
  }

  lemma StaysPrefix(start: string, b: string, c: string)
    ensures start <= start + b && start <= start + b + c
  {
  }

  lemma GrownText(b: Block, next: string, lines: seq<string>)
    requires Printed(b) && Own(b, next) <= lines
    ensures Grown(b.value) <= Join(lines)
  {
    var own := Own(b, next);
    OwnText(b, next);
    var rest := lines[|own|..];
    assert lines == own + rest;
    if rest == [] {
      assert lines == own;
      StaysPrefix(Grown(b.value), next, "");
    } else {
      JoinAppend(own, rest);
      Regroup3(Grown(b.value) + next, "\n", Join(rest));
      StaysPrefix(Grown(b.value), next, "\n" + Join(rest));
    }
  }

  /** Text that goes on past a printed value is longer than the value, and runs over a line end. */
  lemma GrownStrips(value: string, t: string)
    requires value != "" && Stripped(value) && Grown(value) <= t
    ensures |Strip(t)| > |value| && '\n' in Strip(t)
  {
    var start := Grown(value);
    assert t[1] == start[1] == value[0];
    assert t[|value| + 3] == start[|value| + 3] == '#';
    assert t[|value| + 1] == start[|value| + 1] == '\n';
    StripKeepsBetween(t, 1, |value| + 3);
    StripSpan(t, 1, |value| + 3, |value| + 1);
  }

  lemma SwallowedIsLonger(b: Block, next: string, lines: seq<string>)
    requires Printed(b) && Own(b, next) <= lines
    ensures |Strip(Join(lines))| > |b.value| && Strip(Join(lines)) != NO_RESPONSE
  {
    GrownText(b, next, lines);
    GrownStrips(b.value, Join(lines));
    assert '\n' !in NO_RESPONSE;
  }

  lemma StripReaches(t: string, i: nat, j: nat)
    requires i <= j < |t| && !IsSpace(t[i]) && !IsSpace(t[j])
    ensures Lead(t) <= i && j < End(t) && Strip(t) == t[Lead(t)..End(t)]
  {
  }

  lemma SliceHolds(t: string, lo: nat, hi: nat, k: nat)
    requires lo <= k < hi <= |t|
    ensures t[k] in t[lo..hi]
  {
    assert t[lo..hi][k - lo] == t[k];
  }

  lemma StripSpan(t: string, i: nat, j: nat, k: nat)
    requires i <= k <= j < |t| && !IsSpace(t[i]) && !IsSpace(t[j])
    ensures t[k] in Strip(t)
  {
    StripReaches(t, i, j);
    SliceHolds(t, Lead(t), End(t), k);
  }

  lemma {:induction false} NoSuchHeading(blocks: seq<Block>, section: string)
    requires forall i :: 0 <= i < |blocks| ==> Printed(blocks[i]) && blocks[i].section != section
    ensures forall l :: l in AllLines(blocks) ==> HeadingOf(l) != Some(section)
  {
    if blocks != [] {
      var n := |blocks| - 1;
      NoSuchHeading(blocks[..n], section);
      HeadingLine(blocks[n].section);
      forall l | l in LinesOf(blocks[n])
        ensures HeadingOf(l) != Some(section)
      {
        assert l == H3 + blocks[n].section || l == "" || l in Split(blocks[n].value);
      }
    }
  }

  lemma {:induction false} LinesSplit(blocks: seq<Block>, i: nat)
    requires i <= |blocks|
    ensures AllLines(blocks) == AllLines(blocks[..i]) + AllLines(blocks[i..])
  {
    if i == |blocks| {
      assert blocks[..i] == blocks;
    } else {
      var n := |blocks| - 1;
      var tail := blocks[i..];
      LinesSplit(blocks[..n], i);
      assert blocks[..n][..i] == blocks[..i];
      assert blocks[..n][i..] == tail[..|tail| - 1];
      assert tail[|tail| - 1] == blocks[n];
      Regroup(AllLines(blocks), AllLines(blocks[..n]), AllLines(blocks[..i]), AllLines(tail[..|tail| - 1]),
              LinesOf(blocks[n]));
    }
  }

  lemma OpenSection(b: Block, next: string)
    requires Printed(b)
    ensures Opens(b.section, Own(b, next))
  {
    forall lines | Own(b, next) <= lines
      ensures Strip(Join(lines)) != "" && Strip(Join(lines)) != NO_RESPONSE
    {
      SwallowedIsLonger(b, next, lines);
    }
  }

  /** After an open fence, whatever lines follow, the section is filed with a longer text. */
  lemma OpenTail(known: seq<string>, s: Scan, b: Block, next: string, later: seq<string>)
    requires Printed(b) && s.current == Some(b.section) && s.buffer == Collected(b) && s.fence.Some?
    requires b.section !in s.sections
    requires forall l :: l in later ==> HeadingOf(l) != Some(b.section)
    ensures var m := Flushed(ScanLines(known, s, [H3 + next] + later));
      b.section in m && m[b.section] != [b.value]
  {
    var own := Own(b, next);
    OpenSection(b, next);
    ScanAppend(known, s, [H3 + next], later);
    assert [H3 + next][..0] == [];
    var t := ScanLines(known, s, [H3 + next]);
    assert t.current == Some(b.section) && t.buffer == own && t.sections == s.sections;
    SwallowLines(known, t, b.section, own, later);
    var n := ScanLines(known, t, later);
    SwallowedIsFiled(n, b.section, own);
    var lines :| own <= lines && Flushed(n)[b.section] == [Strip(Join(lines))];
    SwallowedIsLonger(b, next, lines);
  }

  /** The lines of these blocks after the first heading. */
  function Later(rest: seq<Block>): seq<string>
    requires rest != []
  {
    Collected(rest[0]) + AllLines(rest[1..])
  }

  lemma HeadThenCollected(b: Block)
    ensures LinesOf(b) == [H3 + b.section] + Collected(b)
  {
  }

  lemma OneBlock(b: Block)
    ensures AllLines([b]) == LinesOf(b)
  {
    assert [b][..0] == [];
  }

  lemma LaterLines(rest: seq<Block>)
    requires rest != []
    ensures AllLines(rest) == [H3 + rest[0].section] + Later(rest)
  {
    var b, tail := rest[0], AllLines(rest[1..]);
    LinesSplit(rest, 1);
    assert rest[..1] == [b];
    OneBlock(b);
    HeadThenCollected(b);
    Regroup(AllLines(rest), LinesOf(b), [H3 + b.section], Collected(b), tail);
  }

  lemma Regroup<T>(all: seq<T>, first: seq<T>, head: seq<T>, middle: seq<T>, tail: seq<T>)
    requires all == first + tail && first == head + middle
    ensures all == head + (middle + tail)
  {
  }

  lemma TailLines(rest: seq<Block>, section: string)
    requires rest != [] && forall i :: 0 <= i < |rest| ==> Printed(rest[i]) && rest[i].section != section
    ensures AllLines(rest) == [H3 + rest[0].section] + Later(rest)
    ensures forall l :: l in Later(rest) ==> HeadingOf(l) != Some(section)
  {
    NoSuchHeading(rest, section);
    LaterLines(rest);
    forall l | l in Later(rest)
      ensures l in AllLines(rest)
    {
    }
  }

  lemma OpenLines(known: seq<string>, first: seq<Block>, rest: seq<Block>)
    requires AllKnown(known, first) && AllPrinted(first) && first != []
    requires AllClose(first[..|first| - 1]) && !Closes(first[|first| - 1])
    requires rest != [] && forall i :: 0 <= i < |rest| ==>
      Printed(rest[i]) && rest[i].section != first[|first| - 1].section
    ensures var b := first[|first| - 1];
      var m := Flushed(ScanLines(known, START, AllLines(first) + AllLines(rest)));
      b.section in m && m[b.section] != [b.value]
  {
    var b := first[|first| - 1];
    ScanAppend(known, START, AllLines(first), AllLines(rest));
    ScanFollows(known, first);
    NotYetKept(first);
    TailLines(rest, b.section);
    OpenTail(known, ScanAfter(first), b, rest[0].section, Later(rest));
  }

  lemma Halves(known: seq<string>, blocks: seq<Block>, i: nat)
    requires AllKnown(known, blocks) && AllPrinted(blocks) && i + 1 < |blocks|
    ensures AllKnown(known, blocks[..i + 1]) && AllPrinted(blocks[..i + 1]) && blocks[..i + 1][..i] == blocks[..i]
    ensures var rest := blocks[i + 1..];
      rest != [] && forall k :: 0 <= k < |rest| ==> Printed(rest[k]) && rest[k].section != blocks[i].section
  {
  }

  /** If section `i` is the first to leave a fence open and is not the last, its text comes back longer. */
  lemma OpenDoesNotComeBack(known: seq<string>, blocks: seq<Block>, i: nat)
    requires AllKnown(known, blocks) && AllPrinted(blocks) && i + 1 < |blocks|
    requires AllClose(blocks[..i]) && !Closes(blocks[i])
    ensures var m := Parsed(known, Join(Texts(blocks)), None);
      blocks[i].section in m && m[blocks[i].section] != [blocks[i].value]
  {
    var first := blocks[..i + 1];
    ParsesAs(known, blocks);
    LinesSplit(blocks, i + 1);
    Halves(known, blocks, i);
    OpenLines(known, first, blocks[i + 1..]);
  }

  // ---- the round trip -------------------------------------------------------------------------

  /** The fields that carry a text of their own, each once. */
  function Expected(fields: Fields): Sections {
    map s | s in fields && ValueOf(fields, s) != "" && ValueOf(fields, s) != NO_RESPONSE :: [ValueOf(fields, s)]
  }

  /** Section names that can stand in a heading. */
  predicate Headable(known: seq<string>) {
    && (forall s :: s in known ==> s != "" && Stripped(s) && IsLine(s))
    && (forall i, j :: 0 <= i < j < |known| ==> known[i] != known[j])
  }

  lemma PlaceholderIsPrinted()
    ensures NO_RESPONSE != "" && Stripped(NO_RESPONSE) && '\r' !in NO_RESPONSE && !HasHeading(NO_RESPONSE)
  {
    NoHeadingWithoutHash(NO_RESPONSE);
  }

  lemma NoHeadingWithoutHash(t: string)
    requires t != "" && '\n' !in t && t[0] != '#'
    ensures !HasHeading(t)
  {
    SplitOneLine(t);
  }

  lemma HeadableFront(known: seq<string>)
    requires Headable(known) && known != []
    ensures Headable(known[..|known| - 1])
  {
    var front := known[..|known| - 1];
    assert forall i :: 0 <= i < |front| ==> front[i] == known[i];
    assert forall s :: s in front ==> s in known;
  }

  lemma BlockIsPrinted(fields: Fields, section: string)
    requires section != "" && Stripped(section) && IsLine(section) && !HasHeading(ValueOf(fields, section))
    ensures Printed(BlockOf(fields, section))
  {
    PlaceholderIsPrinted();
    if section in fields && fields[section].Some? {
      StripKeepsChars(NormalizeNewlines(fields[section].value), '\r');
    }
  }

  lemma PrintedOneMore(blocks: seq<Block>, b: Block)
    requires AllPrinted(blocks) && Printed(b) && forall i :: 0 <= i < |blocks| ==> blocks[i].section != b.section
    ensures AllPrinted(blocks + [b])
  {
  }

  lemma {:induction false} BlocksArePrinted(fields: Fields, includeEmpty: bool, known: seq<string>)
    requires Headable(known) && forall s :: s in fields ==> !HasHeading(ValueOf(fields, s))
    ensures AllPrinted(Blocks(fields, includeEmpty, known)) && AllKnown(known, Blocks(fields, includeEmpty, known))
  {
    if known != [] {
      var n := |known| - 1;
      var before := Blocks(fields, includeEmpty, known[..n]);
      HeadableFront(known);
      BlocksArePrinted(fields, includeEmpty, known[..n]);
      assert known[n] in known;
      AbsentHasNoHeading(fields, known[n]);
      BlockIsPrinted(fields, known[n]);
      forall i | 0 <= i < |before|
        ensures before[i].section != known[n] && before[i].section in known
      {
        assert before[i].section in known[..n];
      }
      PrintedOneMore(before, BlockOf(fields, known[n]));
    }
  }

  /** The expected texts of these sections only. */
  function Restricted(m: Sections, known: seq<string>): Sections {
    map s | s in m && s in known :: m[s]
  }

  lemma RestrictedOneMore(m: Sections, known: seq<string>)
    requires known != []
    ensures var n := |known| - 1;
      Restricted(m, known) ==
        if known[n] in m then Restricted(m, known[..n])[known[n] := m[known[n]]] else Restricted(m, known[..n])
  {
    assert forall s :: s in known <==> s in known[..|known| - 1] || s == known[|known| - 1];
  }

  lemma KeptOneMore(before: seq<Block>, b: Block)
    ensures Kept(before + [b]) == if b.value == NO_RESPONSE then Kept(before) else Kept(before)[b.section := [b.value]]
  {
    assert (before + [b])[..|before|] == before;
  }

  /** The printed blocks carry exactly the expected texts of the sections seen so far. */
  lemma {:induction false} BlocksAreExpected(fields: Fields, includeEmpty: bool, known: seq<string>)
    ensures Kept(Blocks(fields, includeEmpty, known)) == Restricted(Expected(fields), known)
  {
    if known != [] {
      var n := |known| - 1;
      BlocksAreExpected(fields, includeEmpty, known[..n]);
      RestrictedOneMore(Expected(fields), known);
      var section := known[n];
      assert section in Expected(fields) <==> ValueOf(fields, section) != "" && ValueOf(fields, section) != NO_RESPONSE;
      if Prints(fields, includeEmpty, section) {
        KeptOneMore(Blocks(fields, includeEmpty, known[..n]), BlockOf(fields, section));
      } else {
        assert ValueOf(fields, section) == "";
        assert Blocks(fields, includeEmpty, known) == Blocks(fields, includeEmpty, known[..n]);
      }
    }
  }

  ghost predicate FencesClose(blocks: seq<Block>) {
    forall i :: 0 <= i < |blocks| - 1 ==> Closes(blocks[i])
  }

  lemma FirstOpen(blocks: seq<Block>) returns (i: nat)
    requires !FencesClose(blocks)
    ensures i + 1 < |blocks| && !Closes(blocks[i]) && AllClose(blocks[..i])
  {
    i := 0;
    while Closes(blocks[i])
      invariant i + 1 < |blocks| && AllClose(blocks[..i])
      invariant exists k :: i <= k < |blocks| - 1 && !Closes(blocks[k])
      decreases |blocks| - i
    {
      i := i + 1;
    }
  }

  lemma KeptHolds(blocks: seq<Block>, i: nat)
    requires AllPrinted(blocks) && i < |blocks| && blocks[i].section in Kept(blocks)
    ensures Kept(blocks)[blocks[i].section] == [blocks[i].value]
  {
    if i < |blocks| - 1 {
      KeptHolds(blocks[..|blocks| - 1], i);
    } else {
      NotYetKept(blocks);
    }
  }

  lemma NotClosedIsNotKept(known: seq<string>, blocks: seq<Block>)
    requires AllKnown(known, blocks) && AllPrinted(blocks) && !FencesClose(blocks)
    ensures Parsed(known, Join(Texts(blocks)), None) != Kept(blocks)
  {
    var i := FirstOpen(blocks);
    OpenDoesNotComeBack(known, blocks, i);
    if blocks[i].section in Kept(blocks) {
      KeptHolds(blocks, i);
    }
  }

  /**
   * For every set of fields that can be printed: parsing the printed body yields exactly the
   * sections with a text of their own, each once and unchanged, if and only if no printed
   * section before the last leaves a fence open.
   */
  lemma RoundTripFor(known: seq<string>, fields: Fields, includeEmpty: bool)
    requires Headable(known) && Renders(fields, known)
    ensures var blocks := Blocks(fields, includeEmpty, known);
      Parsed(known, Join(Texts(blocks)), None) == Expected(fields) <==> FencesClose(blocks)
  {
    var blocks := Blocks(fields, includeEmpty, known);
    BlocksArePrinted(fields, includeEmpty, known);
    BlocksAreExpected(fields, includeEmpty, known);
    assert Restricted(Expected(fields), known) == Expected(fields);
    if FencesClose(blocks) {
      ClosedComesBack(known, blocks);
    } else {
      NotClosedIsNotKept(known, blocks);
    }
  }

  lemma KnownAreStripped()
    ensures forall s :: s in KNOWN_SECTIONS ==> s != "" && Stripped(s)
  {
  }

  lemma KnownAreLines()
    ensures forall s :: s in KNOWN_SECTIONS ==> IsLine(s)
  {
  }

  lemma KnownAreDistinct()
    ensures forall i, j :: 0 <= i < j < |KNOWN_SECTIONS| ==> KNOWN_SECTIONS[i] != KNOWN_SECTIONS[j]
  {
  }

  lemma RoundTrip(fields: Fields, includeEmpty: bool)
    requires Renders(fields, KNOWN_SECTIONS)
    ensures var blocks := Blocks(fields, includeEmpty, KNOWN_SECTIONS);
      Parsed(KNOWN_SECTIONS, Join(Texts(blocks)), None) == Expected(fields) <==> FencesClose(blocks)
  {
    KnownAreStripped();
    KnownAreLines();
    KnownAreDistinct();
    RoundTripFor(KNOWN_SECTIONS, fields, includeEmpty);
  }
}
