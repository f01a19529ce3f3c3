/**
 * A commit is materialized from one listing of its tree and one stream of all its blobs
 * (agent_collector.py, `snapshot_commit`). The stream is decoded exactly: nothing is skipped,
 * nothing is left over, and no byte inside a file is mistaken for framing. Bytes are characters.
 */
module BatchStream {
  import opened Common
  import opened DecimalText

  const MAX_SNAPSHOT: nat := 64 * 1024 * 1024
  const MAX_ENTRIES := 10000

  // ---- the listing -----------------------------------------------------------------------

  type Path = seq<string>

  /** One line of the tree listing; `size` is None where it is not a number or the path not text. */
  datatype Listed = Listed(mode: string, kind: string, oid: string, size: Option<nat>,
                           path: Path, absolute: bool, verbatim: bool)

  datatype Entry = Entry(path: Path, oid: string, size: nat, executable: bool)

  datatype SnapshotError = Unsupported | Unsafe | TooLarge | Mismatch | Truncated | Unexpected

  predicate SafeEntry(l: Listed) {
    && l.mode in {"100644", "100755"} && l.kind == "blob"
    && !l.absolute && l.verbatim && l.path != []
    && ".." !in l.path && ".git" !in l.path
  }

  function EntryOf(l: Listed): Entry
    requires l.size.Some?
  {
    Entry(l.path, l.oid, l.size.value, l.mode == "100755")
  }

  function TotalSize(entries: seq<Entry>): nat {
    if entries == [] then 0 else TotalSize(entries[..|entries| - 1]) + entries[|entries| - 1].size
  }

  predicate Acceptable(listing: seq<Listed>) {
    forall i :: 0 <= i < |listing| ==> listing[i].size.Some? && SafeEntry(listing[i])
  }

  function Entries(listing: seq<Listed>): (entries: seq<Entry>)
    requires Acceptable(listing)
    ensures |entries| == |listing|
  {
    seq(|listing|, i requires 0 <= i < |listing| => EntryOf(listing[i]))
  }

  /** Keeps a listing of plain files with safe paths, within the limits, and refuses any other. */
  method SelectEntries(listing: seq<Listed>) returns (r: Result<seq<Entry>, SnapshotError>)
    ensures r.Success? <==>
      Acceptable(listing) && |listing| <= MAX_ENTRIES && TotalSize(Entries(listing)) <= MAX_SNAPSHOT
    ensures r.Success? ==> r.value == Entries(listing)
  {
    var entries: seq<Entry>, total := [], 0;
    for i := 0 to |listing|
      invariant Acceptable(listing[..i]) && entries == Entries(listing[..i]) && total == TotalSize(entries)
    {
      var l := listing[i];
      assert listing[..i + 1] == listing[..i] + [l];
      if l.size.None? {
        return Failure(Unsupported);
      }
      if !SafeEntry(l) {
        return Failure(Unsafe);
      }
      assert (entries + [EntryOf(l)])[..|entries|] == entries;
      entries, total := entries + [EntryOf(l)], total + l.size.value;
    }
    assert listing[..|listing|] == listing;
    if |entries| > MAX_ENTRIES || total > MAX_SNAPSHOT {
      return Failure(TooLarge);
    }
    r := Success(entries);
  }

  // ---- the stream ---------------------------------------------------------------------------

  /** Object names hold no line end: they are cut from the listing at whitespace. */
  predicate Named(entries: seq<Entry>) {
    forall i :: 0 <= i < |entries| ==> '\n' !in entries[i].oid
  }

  function Header(e: Entry): string {
    e.oid + " blob " + Decimal(e.size)
  }

  function Chunk(e: Entry, content: string): string {
    Header(e) + "\n" + content + "\n"
  }

  predicate Fits(entries: seq<Entry>, contents: seq<string>) {
    |contents| == |entries| && forall i :: 0 <= i < |entries| ==> |contents[i]| == entries[i].size
  }

  /** The stream that answers for these entries with these contents. */
  function Stream(entries: seq<Entry>, contents: seq<string>): string
    requires |contents| == |entries|
  {
    if entries == [] then ""
    else
      var n := |entries| - 1;
      Stream(entries[..n], contents[..n]) + Chunk(entries[n], contents[n])
  }

  function ChunkLength(e: Entry): nat {
    |Header(e)| + 2 + e.size
  }

  function StreamLength(entries: seq<Entry>): nat {
    if entries == [] then 0 else StreamLength(entries[..|entries| - 1]) + ChunkLength(entries[|entries| - 1])
  }

  /** The framing alone fixes where each file starts. */
  lemma {:induction false} StreamHasLength(entries: seq<Entry>, contents: seq<string>)
    requires Fits(entries, contents)
    ensures |Stream(entries, contents)| == StreamLength(entries)
  {
    if entries != [] {
      var n := |entries| - 1;
      StreamHasLength(entries[..n], contents[..n]);
    }
  }

  // ---- the files ----------------------------------------------------------------------------

  datatype File = File(content: string, executable: bool)

  type Tree = map<Path, File>

  function FilesOf(entries: seq<Entry>, contents: seq<string>): Tree
    requires |contents| == |entries|
  {
    if entries == [] then map[]
    else
      var n := |entries| - 1;
      FilesOf(entries[..n], contents[..n])[entries[n].path := File(contents[n], entries[n].executable)]
  }

  /** Where paths are distinct, every entry is there with its own content and mode, and nothing else is. */
  lemma {:induction false} FilesAreEntries(entries: seq<Entry>, contents: seq<string>)
    requires |contents| == |entries|
    requires forall i, j :: 0 <= i < j < |entries| ==> entries[i].path != entries[j].path
    ensures forall i :: 0 <= i < |entries| ==>
      && entries[i].path in FilesOf(entries, contents)
      && FilesOf(entries, contents)[entries[i].path] == File(contents[i], entries[i].executable)
    ensures forall p :: p in FilesOf(entries, contents) ==> exists i :: 0 <= i < |entries| && entries[i].path == p
  {
    if entries != [] {
      var n := |entries| - 1;
      FilesAreEntries(entries[..n], contents[..n]);
      forall p | p in FilesOf(entries, contents)
        ensures exists i :: 0 <= i < |entries| && entries[i].path == p
      {
        if p != entries[n].path {
          var i :| 0 <= i < n && entries[..n][i].path == p;
          assert entries[i].path == p;
        } else {
          assert entries[n].path == p;
        }
      }
      forall i | 0 <= i < |entries|
        ensures entries[i].path in FilesOf(entries, contents)
        ensures FilesOf(entries, contents)[entries[i].path] == File(contents[i], entries[i].executable)
      {
        if i < n {
          assert entries[..n][i] == entries[i] && contents[..n][i] == contents[i];
        }
      }
    }
  }

  // ---- decoding -------------------------------------------------------------------------------

  /** The next line end from here, or minus one. */
  function Find(t: string, from: nat): (i: int)
    requires from <= |t|
    ensures i == -1 || from <= i < |t|
    ensures i == -1 ==> forall k :: from <= k < |t| ==> t[k] != '\n'
    ensures i >= 0 ==> t[i] == '\n' && forall k :: from <= k < i ==> t[k] != '\n'
    decreases |t| - from
  {
    if from == |t| then -1 else if t[from] == '\n' then from else Find(t, from + 1)
  }

  /** A slice that stops at the end of the text. */
  function Slice(t: string, lo: nat, hi: nat): string {
    if lo >= |t| || hi <= lo then "" else t[lo..if hi < |t| then hi else |t|]
  }

  /** At this offset stands a chunk of entry `e`. */
  predicate ChunkAt(t: string, offset: nat, e: Entry) {
    && offset + ChunkLength(e) <= |t|
    && t[offset..offset + |Header(e)|] == Header(e)
    && t[offset + |Header(e)|] == '\n'
    && t[offset + ChunkLength(e) - 1] == '\n'
  }

  function ContentAt(t: string, offset: nat, e: Entry): string
    requires ChunkAt(t, offset, e)
  {
    t[offset + |Header(e)| + 1..offset + ChunkLength(e) - 1]
  }

  /** Reads one object at the offset: its header line, its content, its final line end. */
  method ReadChunk(t: string, offset: nat, e: Entry) returns (r: Result<(string, nat), SnapshotError>)
    requires offset <= |t| && '\n' !in e.oid
    ensures r.Success? <==> ChunkAt(t, offset, e)
    ensures r.Success? ==> r.value == (ContentAt(t, offset, e), offset + ChunkLength(e))
  {
    HeaderIsLine(e);
    var end := Find(t, offset);
    FoundHeader(t, offset, e);
    if end < 0 || t[offset..end] != Header(e) {
      return Failure(Mismatch);
    }
    var content := Slice(t, end + 1, end + 1 + e.size);
    if |content| != e.size || Slice(t, end + 1 + e.size, end + 2 + e.size) != "\n" {
      return Failure(Truncated);
    }
    r := Success((content, end + 2 + e.size));
  }

  lemma HeaderIsLine(e: Entry)
    requires '\n' !in e.oid
    ensures '\n' !in Header(e)
  {
    DecimalReads(e.size);
  }

  lemma FoundHeader(t: string, offset: nat, e: Entry)
    requires offset <= |t| && '\n' !in Header(e)
    ensures ChunkAt(t, offset, e) ==> Find(t, offset) == offset + |Header(e)|
  {
    if ChunkAt(t, offset, e) {
      var h := Header(e);
      assert forall k :: offset <= k < offset + |h| ==> t[k] == t[offset..offset + |h|][k - offset];
    }
  }

  lemma ChunkAtIsChunk(t: string, offset: nat, e: Entry)
    requires ChunkAt(t, offset, e)
    ensures t[..offset + ChunkLength(e)] == t[..offset] + Chunk(e, ContentAt(t, offset, e))
    ensures |ContentAt(t, offset, e)| == e.size
  {
    var h := Header(e);
    var a, b := offset + |h|, offset + ChunkLength(e);
    assert t[..b] == t[..offset] + t[offset..a] + t[a..a + 1] + t[a + 1..b - 1] + t[b - 1..b];
    assert t[a..a + 1] == "\n" && t[b - 1..b] == "\n";
  }

  /** Any stream for these entries has the chunk of entry `i` exactly where the lengths put it. */
  lemma {:induction false} StreamHasChunk(entries: seq<Entry>, contents: seq<string>, i: nat)
    requires Fits(entries, contents) && i < |entries|
    ensures StreamLength(entries[..i]) + ChunkLength(entries[i]) <= |Stream(entries, contents)|
    ensures ChunkAt(Stream(entries, contents), StreamLength(entries[..i]), entries[i])
    ensures ContentAt(Stream(entries, contents), StreamLength(entries[..i]), entries[i]) == contents[i]
  {
    var n := |entries| - 1;
    var before := Stream(entries[..n], contents[..n]);
    StreamHasLength(entries[..n], contents[..n]);
    if i < n {
      StreamHasChunk(entries[..n], contents[..n], i);
      assert entries[..n][..i] == entries[..i];
      ChunkStays(before, Chunk(entries[n], contents[n]), StreamLength(entries[..i]), entries[i]);
    } else {
      ChunkInPlace(before, entries[n], contents[n]);
    }
  }

  lemma ChunkStays(before: string, more: string, offset: nat, e: Entry)
    requires ChunkAt(before, offset, e)
    ensures ChunkAt(before + more, offset, e) && ContentAt(before + more, offset, e) == ContentAt(before, offset, e)
  {
  }

  lemma ChunkInPlace(before: string, e: Entry, content: string)
    requires |content| == e.size
    ensures ChunkAt(before + Chunk(e, content), |before|, e)
    ensures ContentAt(before + Chunk(e, content), |before|, e) == content
  {
    var t := before + Chunk(e, content);
    var h := Header(e);
    assert t[|before|..|before| + |h|] == h;
    assert t[|before| + |h| + 1..|before| + ChunkLength(e) - 1] == content;
  }

  /** A stream determines the contents: no two trees share one. */
  lemma StreamIsUnambiguous(entries: seq<Entry>, a: seq<string>, b: seq<string>)
    requires Fits(entries, a) && Fits(entries, b) && Stream(entries, a) == Stream(entries, b)
    ensures a == b
  {
    forall i | 0 <= i < |entries|
      ensures a[i] == b[i]
    {
      StreamHasChunk(entries, a, i);
      StreamHasChunk(entries, b, i);
    }
  }

  lemma NoChunkNoStream(entries: seq<Entry>, t: string, i: nat)
    requires i < |entries| && !ChunkAt(t, StreamLength(entries[..i]), entries[i])
    ensures forall contents :: Fits(entries, contents) ==> t != Stream(entries, contents)
  {
    forall contents | Fits(entries, contents)
      ensures t != Stream(entries, contents)
    {
      StreamHasChunk(entries, contents, i);
    }
  }

  lemma StreamGrows(entries: seq<Entry>, contents: seq<string>, i: nat, content: string)
    requires i < |entries| && |contents| == i && |content| == entries[i].size && Fits(entries[..i], contents)
    ensures Fits(entries[..i + 1], contents + [content])
    ensures Stream(entries[..i + 1], contents + [content]) ==
      Stream(entries[..i], contents) + Chunk(entries[i], content)
    ensures StreamLength(entries[..i + 1]) == StreamLength(entries[..i]) + ChunkLength(entries[i])
    ensures FilesOf(entries[..i + 1], contents + [content]) ==
      FilesOf(entries[..i], contents)[entries[i].path := File(content, entries[i].executable)]
  {
    assert entries[..i + 1][..i] == entries[..i];
    assert (contents + [content])[..i] == contents;
  }

  /**
   * Decodes the whole stream. It succeeds exactly when the stream is the one the entries ask
   * for with some contents of the listed sizes, and then writes those contents.
   */
  method WriteBlobs(entries: seq<Entry>, t: string)
    returns (r: Result<Tree, SnapshotError>, ghost contents: seq<string>)
    requires Named(entries)
    ensures r.Success? <==> exists cs :: Fits(entries, cs) && t == Stream(entries, cs)
    ensures r.Success? ==>
      Fits(entries, contents) && t == Stream(entries, contents) && r.value == FilesOf(entries, contents)
  {
    var offset, tree: Tree := 0, map[];
    contents := [];
    for i := 0 to |entries|
      invariant offset == StreamLength(entries[..i]) <= |t|
      invariant Fits(entries[..i], contents) && t[..offset] == Stream(entries[..i], contents)
      invariant tree == FilesOf(entries[..i], contents)
    {
      var e := entries[i];
      var chunk := ReadChunk(t, offset, e);
      if chunk.Failure? {
        NoChunkNoStream(entries, t, i);
        return Failure(chunk.error), [];
      }
      ChunkAtIsChunk(t, offset, e);
      StreamGrows(entries, contents, i, chunk.value.0);
      tree := tree[e.path := File(chunk.value.0, e.executable)];
      contents := contents + [chunk.value.0];
      offset := chunk.value.1;
    }
    assert entries[..|entries|] == entries;
    if offset != |t| {
      OnlyOneLength(entries, t);
      return Failure(Unexpected), [];
    }
    assert t[..offset] == t;
    r := Success(tree);
  }

  lemma OnlyOneLength(entries: seq<Entry>, t: string)
    requires |t| != StreamLength(entries)
    ensures forall cs :: Fits(entries, cs) ==> t != Stream(entries, cs)
  {
    forall cs | Fits(entries, cs)
      ensures t != Stream(entries, cs)
    {
      StreamHasLength(entries, cs);
    }
  }

  /** The snapshot of a commit: its listing is acceptable and its stream is exactly the listed blobs. */
  method SnapshotCommit(listing: seq<Listed>, t: string)
    returns (r: Result<Tree, SnapshotError>, ghost contents: seq<string>)
    requires forall i :: 0 <= i < |listing| ==> '\n' !in listing[i].oid
    ensures r.Success? <==>
      (&& Acceptable(listing) && |listing| <= MAX_ENTRIES && TotalSize(Entries(listing)) <= MAX_SNAPSHOT
       && exists cs :: Fits(Entries(listing), cs) && t == Stream(Entries(listing), cs))
    ensures r.Success? ==>
      (&& Fits(Entries(listing), contents) && t == Stream(Entries(listing), contents)
       && r.value == FilesOf(Entries(listing), contents))
  {
    contents := [];
    var selected := SelectEntries(listing);
    if selected.Failure? {
      return Failure(selected.error), [];
    }
    r, contents := WriteBlobs(selected.value, t);
  }
}
