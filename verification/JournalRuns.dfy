/**
 * What holds over every sequence of journal operations and stops, however they are placed:
 * the journal only grows, an interrupted write is never accepted, and nothing else is refused.
 */
module JournalRuns {
  import opened Common
  import opened CommitGraph
  import opened Journal

  /** The files before each operation and after the last, starting from nothing. */
  datatype Trace = Trace(files: seq<Files>, ops: seq<Op>)

  predicate IsRun(reg: Registration, t: Trace) {
    && |t.files| == |t.ops| + 1
    && t.files[0] == NOTHING
    && (forall i, j :: 0 <= i < |t.ops| && j == i + 1 ==> t.files[j] == After(reg, t.files[i], t.ops[i]))
  }

  /** Every operation looked at some of the commits of one immutable history. */
  predicate SameHistory(h: History, ops: seq<Op>) {
    forall op :: op in ops ==> Within(op.view.repo.history, h)
  }

  // ---- one step ------------------------------------------------------------------------------

  /** Nothing that was accepted or receipted is dropped or reordered. */
  predicate Grows(before: Progress, after: Progress) {
    && IsPrefix(before.accepted, after.accepted)
    && IsPrefix(before.receipts, after.receipts)
    && after.base == before.base
    && after.taskIds == before.taskIds
  }

  lemma IntendsGrows(reg: Registration, f: Files, op: Op)
    requires Intends(reg, f, op).Some?
    ensures !Torn(f)
    ensures f.progress.Some? ==> Grows(f.progress.value, Intends(reg, f, op).value) && f.progress != Intends(reg, f, op)
    ensures f.progress.None? ==> f.anchor.None?
  {
    var p := Intends(reg, f, op).value;
    if f.progress.Some? {
      var q := f.progress.value;
      assert p.accepted[..|q.accepted|] == q.accepted;
      assert p.receipts[..|q.receipts|] == q.receipts;
      assert |p.accepted| + |p.receipts| == |q.accepted| + |q.receipts| + 1;
    }
  }

  /** Torn files are never written again, and no step loses the journal. */
  lemma StepKeeps(reg: Registration, f: Files, op: Op)
    requires f == NOTHING || Sealed(f) || Torn(f)
    ensures var g := After(reg, f, op); g == NOTHING || Sealed(g) || Torn(g)
    ensures Torn(f) ==> After(reg, f, op) == f
    ensures f.progress.Some? ==>
      After(reg, f, op).progress.Some? && Grows(f.progress.value, After(reg, f, op).progress.value)
    ensures Intends(reg, f, op).Some? && op.fate.StoppedBetween? ==> Torn(After(reg, f, op))
  {
    if Intends(reg, f, op).Some? {
      IntendsGrows(reg, f, op);
    }
    if f.progress.Some? {
      var q := f.progress.value;
      assert q.accepted[..|q.accepted|] == q.accepted && q.receipts[..|q.receipts|] == q.receipts;
    }
  }

  // ---- runs ------------------------------------------------------------------------------------

  lemma {:induction false} RunShape(reg: Registration, t: Trace, i: nat)
    requires IsRun(reg, t) && i < |t.files|
    ensures t.files[i] == NOTHING || Sealed(t.files[i]) || Torn(t.files[i])
  {
    if i > 0 {
      RunShape(reg, t, i - 1);
      StepKeeps(reg, t.files[i - 1], t.ops[i - 1]);
    }
  }

  lemma PrefixTransitive<T>(a: seq<T>, b: seq<T>, c: seq<T>)
    requires IsPrefix(a, b) && IsPrefix(b, c)
    ensures IsPrefix(a, c)
  {
    assert c[..|a|] == c[..|b|][..|a|];
  }

  lemma {:induction false} RunGrows(reg: Registration, t: Trace, i: nat, j: nat)
    requires IsRun(reg, t) && i <= j < |t.files| && t.files[i].progress.Some?
    ensures t.files[j].progress.Some? && Grows(t.files[i].progress.value, t.files[j].progress.value)
    ensures Torn(t.files[i]) ==> t.files[j] == t.files[i]
  {
    var p := t.files[i].progress.value;
    if i == j {
      assert p.accepted[..|p.accepted|] == p.accepted && p.receipts[..|p.receipts|] == p.receipts;
    } else {
      RunGrows(reg, t, i, j - 1);
      RunShape(reg, t, j - 1);
      StepKeeps(reg, t.files[j - 1], t.ops[j - 1]);
      var q, r := t.files[j - 1].progress.value, t.files[j].progress.value;
      PrefixTransitive(p.accepted, q.accepted, r.accepted);
      PrefixTransitive(p.receipts, q.receipts, r.receipts);
    }
  }

  /** Any two journals that load, in the order they were loaded: the later extends the earlier. */
  lemma LoadedJournalsOnlyGrow(reg: Registration, t: Trace, i: nat, j: nat, first: Repo, second: Repo)
    requires IsRun(reg, t) && i <= j < |t.files|
    requires Loads(reg, first, t.files[i]) && Loads(reg, second, t.files[j])
    ensures Grows(t.files[i].progress.value, t.files[j].progress.value)
  {
    RunGrows(reg, t, i, j);
  }

  /** A write stopped between its two files: from then on nothing changes and nothing loads. */
  lemma StoppedBetweenIsFinal(reg: Registration, t: Trace, i: nat, j: nat, repo: Repo)
    requires IsRun(reg, t) && i < j < |t.files|
    requires Intends(reg, t.files[i], t.ops[i]).Some? && t.ops[i].fate.StoppedBetween?
    ensures t.files[j] == t.files[i + 1] && !Loads(reg, repo, t.files[j])
  {
    RunShape(reg, t, i);
    StepKeeps(reg, t.files[i], t.ops[i]);
    RunGrows(reg, t, i + 1, j);
  }

  // ---- nothing sealed is ever refused ------------------------------------------------------------

  lemma NewReceiptKeeps(reg: Registration, h: History, p: Progress, r: Receipt)
    requires WellFormed(reg, h, p) && ValidReceipt(r, p)
    ensures WellFormed(reg, h, WithReceipt(p, r))
  {
    var q := WithReceipt(p, r);
    forall i | 0 <= i < |q.accepted|
      ensures LinkedEntry(h, q, i)
    {
      assert LinkedEntry(h, p, i);
      MoreReceipts(p.receipts, r, p.accepted[i].claim);
    }
  }

  lemma MoreReceipts(receipts: seq<Receipt>, r: Receipt, c: Claim)
    requires Receipted(receipts, c)
    ensures Receipted(receipts + [r], c)
  {
  }

  lemma NewEntryKeeps(reg: Registration, h: History, p: Progress, e: Entry)
    requires WellFormed(reg, h, p)
    requires |p.accepted| < |p.taskIds| && e.claim.taskId == p.taskIds[|p.accepted|]
    requires e.claim.previous == Tip(p) && e.digest == Digest(e.claim)
    requires Receipted(p.receipts, e.claim) && e.claim.commit != Tip(p) && SoleParent(h, Tip(p), e.claim.commit)
    ensures WellFormed(reg, h, WithEntry(p, e))
  {
    var q := WithEntry(p, e);
    forall i | 0 <= i < |q.accepted|
      ensures LinkedEntry(h, q, i)
    {
      if i < |p.accepted| {
        assert LinkedEntry(h, p, i);
        assert Commits(q.accepted)[i] == Commits(p.accepted)[i];
      } else {
        assert CommitBefore(q.base, Commits(q.accepted), i) == Tip(p);
      }
    }
  }

  /** What an operation sets out to write satisfies everything a load checks. */
  lemma IntendsWellFormed(reg: Registration, h: History, f: Files, op: Op)
    requires Within(op.view.repo.history, h)
    requires f.progress.Some? ==> WellFormed(reg, h, f.progress.value)
    requires Intends(reg, f, op).Some?
    ensures WellFormed(reg, h, Intends(reg, f, op).value)
  {
    match op
    case Initialize(_, _) =>
    case Record(_, _, generation, taskId, commit, kind, evidence) =>
      var p := f.progress.value;
      NewReceiptKeeps(reg, h, p, NewReceipt(p, generation, taskId, commit, kind, evidence));
    case Promote(_, _, generation, s) =>
      var p := f.progress.value;
      NewEntryKeeps(reg, h, p, NewEntry(p, generation, s.value.taskId, s.value.commit));
  }

  predicate Fine(reg: Registration, h: History, f: Files) {
    f.progress.Some? ==> WellFormed(reg, h, f.progress.value)
  }

  lemma StepWellFormed(reg: Registration, h: History, f: Files, op: Op, g: Files)
    requires Within(op.view.repo.history, h) && g == After(reg, f, op) && Fine(reg, h, f)
    ensures Fine(reg, h, g)
  {
    if Intends(reg, f, op).Some? {
      IntendsWellFormed(reg, h, f, op);
    }
  }

  /** One step of a run, and what it looked at. */
  lemma StepOfRun(reg: Registration, h: History, t: Trace, i: nat)
    requires IsRun(reg, t) && SameHistory(h, t.ops) && i < |t.ops|
    ensures |t.files| == |t.ops| + 1 && t.files[i + 1] == After(reg, t.files[i], t.ops[i])
    ensures Within(t.ops[i].view.repo.history, h)
  {
    assert t.ops[i] in t.ops;
  }

  lemma {:induction false} RunWellFormed(reg: Registration, h: History, t: Trace, i: nat)
    requires IsRun(reg, t) && SameHistory(h, t.ops) && i < |t.files|
    ensures Fine(reg, h, t.files[i])
  {
    if i > 0 {
      RunWellFormed(reg, h, t, i - 1);
      StepOfRun(reg, h, t, i - 1);
      StepWellFormed(reg, h, t.files[i - 1], t.ops[i - 1], t.files[i]);
    }
  }

  /** Exactly when a journal loads: one was written, and the last write that began was finished. */
  lemma LoadsExactlyWhenSealed(reg: Registration, h: History, t: Trace, i: nat, repo: Repo)
    requires IsRun(reg, t) && SameHistory(h, t.ops) && i < |t.files|
    requires repo.history == h && repo.responds
    ensures Loads(reg, repo, t.files[i]) <==> t.files[i] != NOTHING && !Torn(t.files[i])
  {
    RunShape(reg, t, i);
    RunWellFormed(reg, h, t, i);
  }

  /** The write an operation began and did not finish. */
  predicate Interrupted(reg: Registration, f: Files, op: Op) {
    Intends(reg, f, op).Some? && op.fate.StoppedBetween?
  }

  /** Torn files have exactly one cause: some earlier write was stopped between its two files. */
  lemma {:induction false} TornExactlyAfterInterruption(reg: Registration, t: Trace, i: nat)
    requires IsRun(reg, t) && i < |t.files|
    ensures Torn(t.files[i]) <==> exists k :: 0 <= k < i && Interrupted(reg, t.files[k], t.ops[k])
  {
    if i > 0 {
      TornExactlyAfterInterruption(reg, t, i - 1);
      RunShape(reg, t, i - 1);
      StepKeeps(reg, t.files[i - 1], t.ops[i - 1]);
      if Torn(t.files[i]) && !Torn(t.files[i - 1]) {
        assert Interrupted(reg, t.files[i - 1], t.ops[i - 1]);
      }
    }
  }

  // ---- what a loaded journal proves ---------------------------------------------------------------

  /**
   * A journal that loads is evidence: its commits are a chain of single parents from the base,
   * one per task in manifest order, each with a passed verification and an accepting review of
   * that very commit and attempt.
   */
  lemma AcceptedIsProven(reg: Registration, repo: Repo, f: Files, i: nat)
    requires Loads(reg, repo, f) && i < |f.progress.value.accepted|
    ensures var p := f.progress.value;
      var c := p.accepted[i].claim;
      && Chain(repo.history, p.base, Commits(p.accepted))
      && reg.manifest.Some? && i < |reg.manifest.value| && c.taskId == reg.manifest.value[i].id
      && (exists r :: r in p.receipts && r.commit == c.commit && r.generation == c.generation && r.taskId == c.taskId
                      && r.evidence.Checks? && forall k :: 0 <= k < |r.evidence.checks| ==>
                        r.evidence.checks[k].exitCode == 0)
      && (exists r :: r in p.receipts && r.commit == c.commit && r.generation == c.generation && r.taskId == c.taskId
                      && r.evidence.Verdict? && r.evidence.outcome == "accepted")
  {
    var p := f.progress.value;
    var c := p.accepted[i].claim;
    forall k | 0 <= k < |p.accepted|
      ensures SoleParent(repo.history, CommitBefore(p.base, Commits(p.accepted), k), Commits(p.accepted)[k])
    {
      assert LinkedEntry(repo.history, p, k);
    }
    assert LinkedEntry(repo.history, p, i);
    var v :|
      && v in p.receipts && v.generation == c.generation && v.taskId == c.taskId
      && v.commit == c.commit && v.kind == Verification;
    var w :|
      && w in p.receipts && w.generation == c.generation && w.taskId == c.taskId
      && w.commit == c.commit && w.kind == Review;
    assert ValidReceipt(v, p) && ValidReceipt(w, p);
  }
}
