/**
 * The collection loop (agent_collector.py): each candidate commit is checked and reviewed in
 * a snapshot of its own, receipted, and promoted, in manifest order, while the worktree must
 * stay as it was when collection started.
 */
module Collection {
  import opened Common
  import opened CommitGraph
  import opened Journal
  import opened JournalRuns

  /** The reviewer's answer, as far as it is compared with the request. */
  datatype Reply = Reply(taskId: string, commit: Commit, planIdentity: string, diff: string, outcome: string)

  /** What the outside does while one candidate is collected; None and false are failures. */
  datatype Round = Round(baseView: Repo, diff: Option<string>, snapshots: bool, passed: seq<bool>,
                         reviewerExited: bool, reply: Option<Reply>, receiptId: string, recheck: View,
                         verifyView: View, verifyFate: Fate, reviewView: View, reviewFate: Fate,
                         submissionWritten: bool, promoteView: View, promoteFate: Fate, after: View)

  datatype Collected = Collected(complete: bool, accepted: nat, guarantee: bool)

  function Argvs(checks: seq<Option<seq<string>>>): (r: Option<seq<Check>>)
    ensures r.Some? <==> forall c :: c in checks ==> c.Some?
    ensures r.Some? ==> |r.value| == |checks|
    ensures r.Some? ==> forall i :: 0 <= i < |checks| ==> checks[i].Some? && r.value[i] == Check(checks[i].value, 0)
  {
    if forall c :: c in checks ==> c.Some?
    then Some(seq(|checks|, i requires 0 <= i < |checks| && checks[i].Some? => Check(checks[i].value, 0)))
    else None
  }

  /** The commands pinned for a task, or None where they are missing or one is unsupported. */
  function PinnedChecks(task: Task): Option<seq<Check>> {
    match task.checks
    case None => None
    case Some(checks) => if 1 <= |checks| <= 64 then Argvs(checks) else None
  }

  /** Entry `i` is the pinned task `i`, carried out by the collected commit, in this attempt. */
  ghost predicate Collects(p: Progress, i: nat, commit: Commit, generation: int) {
    && i < |p.accepted| && i < |p.taskIds|
    && p.accepted[i].claim.commit == commit
    && p.accepted[i].claim.generation == generation
    && p.accepted[i].claim.taskId == p.taskIds[i]
  }

  /** `now` is `before` with the given commits accepted after it, in order. */
  ghost predicate Extended(before: Progress, commits: seq<Commit>, generation: int, now: Progress) {
    && Grows(before, now)
    && |now.accepted| == |before.accepted| + |commits|
    && (forall k :: 0 <= k < |commits| ==> Collects(now, |before.accepted| + k, commits[k], generation))
  }

  lemma ExtendedByOne(before: Progress, commits: seq<Commit>, generation: int, now: Progress, c: Commit)
    requires Extended(before, commits, generation, now)
    requires |now.accepted| < |now.taskIds|
    ensures var e := NewEntry(now, generation, now.taskIds[|now.accepted|], c);
      Extended(before, commits + [c], generation, WithEntry(now, e))
  {
    var e := NewEntry(now, generation, now.taskIds[|now.accepted|], c);
    var next := WithEntry(now, e);
    assert next.accepted[..|now.accepted|] == now.accepted;
    PrefixTransitive(before.accepted, now.accepted, next.accepted);
    forall k | 0 <= k < |commits + [c]|
      ensures Collects(next, |before.accepted| + k, (commits + [c])[k], generation)
    {
      if k < |commits| {
        assert Collects(now, |before.accepted| + k, commits[k], generation);
      }
    }
  }

  lemma ExtendedCommits(before: Progress, commits: seq<Commit>, generation: int, now: Progress)
    requires Extended(before, commits, generation, now)
    ensures Commits(now.accepted) == Commits(before.accepted) + commits
    ensures Tip(now) == LastOf(Tip(before), commits)
  {
    forall i | 0 <= i < |now.accepted|
      ensures Commits(now.accepted)[i] == (Commits(before.accepted) + commits)[i]
    {
      if i < |before.accepted| {
        assert now.accepted[..|before.accepted|][i] == before.accepted[i];
      } else {
        assert Collects(now, |before.accepted| + (i - |before.accepted|), commits[i - |before.accepted|], generation);
      }
    }
  }

  /** Runs the pinned commands of one task, each on the snapshot, until one does not exit with zero. */
  method RunChecks(commands: seq<Check>, passed: seq<bool>) returns (ok: bool)
    ensures ok <==> |commands| <= |passed| && forall i :: 0 <= i < |commands| ==> passed[i]
  {
    for i := 0 to |commands|
      invariant i <= |passed| && forall k :: 0 <= k < i ==> passed[k]
    {
      if i >= |passed| || !passed[i] {
        return false;
      }
    }
    ok := true;
  }

  predicate Accepts(reply: Option<Reply>, task: string, commit: Commit, plan: string, diff: string) {
    reply == Some(Reply(task, commit, plan, diff, "accepted"))
  }

  /** A receipt says every pinned command of task `i` exited with zero on this commit. */
  ghost predicate Verified(p: Progress, task: Task, generation: int, commit: Commit) {
    && PinnedChecks(task).Some?
    && exists r :: (&& r in p.receipts && r.kind == Verification && r.generation == generation
                    && r.commit == commit && r.taskId == task.id
                    && r.evidence == Checks(PinnedChecks(task).value))
  }

  lemma VerifiedStays(p: Progress, q: Progress, task: Task, generation: int, commit: Commit)
    requires Verified(p, task, generation, commit) && Grows(p, q)
    ensures Verified(q, task, generation, commit)
  {
    var r :| (&& r in p.receipts && r.kind == Verification && r.generation == generation
              && r.commit == commit && r.taskId == task.id
              && r.evidence == Checks(PinnedChecks(task).value));
    assert r in q.receipts[..|p.receipts|];
    assert r in q.receipts;
  }

  /** Only receipts were added. */
  ghost predicate OnlyReceipts(p: Progress, q: Progress) {
    Grows(p, q) && q.accepted == p.accepted
  }

  lemma GrowsFurther(p: Progress, q: Progress, r: Progress)
    requires Grows(p, q) && Grows(q, r)
    ensures Grows(p, r)
  {
    PrefixTransitive(p.accepted, q.accepted, r.accepted);
    PrefixTransitive(p.receipts, q.receipts, r.receipts);
  }

  lemma GrowsItself(p: Progress)
    ensures Grows(p, p)
  {
    assert p.accepted[..|p.accepted|] == p.accepted && p.receipts[..|p.receipts|] == p.receipts;
  }

  /** The first `n` candidates are accepted and verified, and nothing else was accepted. */
  ghost predicate Collecting(reg: Registration, before: Progress, candidates: seq<Commit>, n: nat, generation: int,
                             now: Progress)
    requires n <= |candidates|
  {
    && reg.manifest.Some? && now.taskIds == TaskIds(reg)
    && Extended(before, candidates[..n], generation, now)
    && |before.accepted| + n <= |reg.manifest.value|
    && (forall k :: 0 <= k < n ==> Verified(now, reg.manifest.value[|before.accepted| + k], generation, candidates[k]))
  }

  lemma CollectingStarts(reg: Registration, before: Progress, candidates: seq<Commit>, generation: int)
    requires reg.manifest.Some? && before.taskIds == TaskIds(reg) && |before.accepted| <= |reg.manifest.value|
    ensures Collecting(reg, before, candidates, 0, generation, before)
  {
    GrowsItself(before);
    assert candidates[..0] == [];
  }

  lemma CollectingReceipts(reg: Registration, before: Progress, candidates: seq<Commit>, n: nat, generation: int,
                           now: Progress, later: Progress)
    requires n <= |candidates| && Collecting(reg, before, candidates, n, generation, now) && OnlyReceipts(now, later)
    ensures Collecting(reg, before, candidates, n, generation, later)
  {
    GrowsFurther(before, now, later);
    forall k | 0 <= k < n
      ensures Collects(later, |before.accepted| + k, candidates[..n][k], generation)
      ensures Verified(later, reg.manifest.value[|before.accepted| + k], generation, candidates[k])
    {
      assert Collects(now, |before.accepted| + k, candidates[..n][k], generation);
      VerifiedStays(now, later, reg.manifest.value[|before.accepted| + k], generation, candidates[k]);
    }
  }

  lemma CollectingOneMore(reg: Registration, before: Progress, candidates: seq<Commit>, n: nat, generation: int,
                          now: Progress)
    requires n < |candidates| && Collecting(reg, before, candidates, n, generation, now)
    requires |before.accepted| + n < |reg.manifest.value|
    requires Verified(now, reg.manifest.value[|before.accepted| + n], generation, candidates[n])
    ensures var e := NewEntry(now, generation, reg.manifest.value[|before.accepted| + n].id, candidates[n]);
      Collecting(reg, before, candidates, n + 1, generation, WithEntry(now, e))
  {
    var next := WithEntry(now, NewEntry(now, generation, reg.manifest.value[|before.accepted| + n].id, candidates[n]));
    assert now.taskIds[|now.accepted|] == reg.manifest.value[|before.accepted| + n].id;
    ExtendedByOne(before, candidates[..n], generation, now, candidates[n]);
    assert candidates[..n + 1] == candidates[..n] + [candidates[n]];
    GrowsItself(now);
    assert next.accepted[..|now.accepted|] == now.accepted;
    forall k | 0 <= k < n + 1
      ensures Verified(next, reg.manifest.value[|before.accepted| + k], generation, candidates[k])
    {
      VerifiedStays(now, next, reg.manifest.value[|before.accepted| + k], generation, candidates[k]);
    }
  }

  // ---- the journal calls, with what the loop needs from them -------------------------------------

  /** Reads the recovery context again; None unless head and status are those of the original. */
  method StillUnchanged(journal: ProgressJournal, view: View, generation: int, original: Context) returns (same: bool)
    ensures same ==> view.repo.head == original.head && view.repo.status == original.status
  {
    var current := journal.RecoveryContext(view, generation);
    same := current.Success? && current.value.head == original.head && current.value.status == original.status;
  }

  method AddReceipt(journal: ProgressJournal, view: View, fate: Fate, generation: int, taskId: string, commit: Commit,
                    kind: Kind, evidence: Evidence) returns (ok: bool)
    requires journal.progress.Some?
    modifies journal
    ensures journal.progress.Some? && OnlyReceipts(old(journal.progress).value, journal.progress.value)
    ensures ok ==>
      NewReceipt(old(journal.progress).value, generation, taskId, commit, kind, evidence)
      in journal.progress.value.receipts
  {
    StepKeeps(journal.reg, journal.Contents(), Record(view, fate, generation, taskId, commit, kind, evidence));
    ok := journal.RecordReceipt(view, fate, generation, taskId, commit, kind, evidence);
  }

  method AddEntry(journal: ProgressJournal, view: View, fate: Fate, generation: int, s: Submission) returns (ok: bool)
    requires journal.progress.Some?
    modifies journal
    ensures journal.progress == old(journal.progress)
      || journal.progress ==
        Some(WithEntry(old(journal.progress).value,
                       NewEntry(old(journal.progress).value, generation, s.taskId, s.commit)))
    ensures ok ==> journal.progress != old(journal.progress)
  {
    ok := journal.PromoteSubmission(view, fate, generation, Some(s));
    if ok {
      assert |journal.progress.value.accepted| == |old(journal.progress).value.accepted| + 1;
    }
  }

  /** Checks, reviews and receipts one candidate. Nothing is accepted here. */
  method GatherEvidence(journal: ProgressJournal, task: Task, commit: Commit, generation: int, original: Context,
                        firstEver: bool, reviewer: string, round: Round) returns (ok: bool)
    requires journal.progress.Some?
    modifies journal
    ensures journal.progress.Some? && OnlyReceipts(old(journal.progress).value, journal.progress.value)
    ensures ok ==> round.recheck.repo.head == original.head && round.recheck.repo.status == original.status
    ensures ok ==> round.diff.Some? && Accepts(round.reply, task.id, commit, journal.reg.planIdentity, round.diff.value)
    ensures ok ==> Verified(journal.progress.value, task, generation, commit)
    ensures ok ==> forall i :: 0 <= i < |PinnedChecks(task).value| ==> i < |round.passed| && round.passed[i]
  {
    ghost var before := journal.progress.value;
    GrowsItself(before);
    var pinned := PinnedChecks(task);
    if pinned.None? {
      return false;
    }
    if firstEver {
      var base := journal.Load(round.baseView);
      if base.Failure? {
        return false;
      }
    }
    if round.diff.None? || !round.snapshots {
      return false;
    }
    var passed := RunChecks(pinned.value, round.passed);
    if !passed || !round.reviewerExited
       || !Accepts(round.reply, task.id, commit, journal.reg.planIdentity, round.diff.value) {
      return false;
    }
    var same := StillUnchanged(journal, round.recheck, generation, original);
    if !same {
      return false;
    }
    var verified := AddReceipt(journal, round.verifyView, round.verifyFate, generation, task.id, commit,
                               Verification, Checks(pinned.value));
    if !verified {
      return false;
    }
    ghost var middle := journal.progress.value;
    assert Verified(middle, task, generation, commit);
    ok := AddReceipt(journal, round.reviewView, round.reviewFate, generation, task.id, commit,
                     Review, Verdict(reviewer, round.receiptId, "accepted"));
    GrowsFurther(before, middle, journal.progress.value);
    VerifiedStays(middle, journal.progress.value, task, generation, commit);
  }

  /** Collects one candidate: evidence, submission, promotion. */
  method CollectOne(journal: ProgressJournal, ghost before: Progress, context: Context, n: nat, generation: int,
                    firstEver: bool, reviewer: string, round: Round) returns (ok: bool)
    requires journal.progress.Some? && n < |context.candidates|
    requires |before.accepted| == |context.accepted|
    requires journal.reg.manifest.Some? && |context.accepted| + n < |journal.reg.manifest.value|
    requires Collecting(journal.reg, before, context.candidates, n, generation, journal.progress.value)
    modifies journal
    ensures journal.progress.Some?
    ensures ok ==> Collecting(journal.reg, before, context.candidates, n + 1, generation, journal.progress.value)
    ensures (|| Collecting(journal.reg, before, context.candidates, n, generation, journal.progress.value)
             || Collecting(journal.reg, before, context.candidates, n + 1, generation, journal.progress.value))
  {
    var commit, task := context.candidates[n], journal.reg.manifest.value[|context.accepted| + n];
    ghost var now := journal.progress.value;
    ok := GatherEvidence(journal, task, commit, generation, context, firstEver, reviewer, round);
    CollectingReceipts(journal.reg, before, context.candidates, n, generation, now, journal.progress.value);
    if !ok || !round.submissionWritten {
      return false;
    }
    CollectingOneMore(journal.reg, before, context.candidates, n, generation, journal.progress.value);
    var s := Submission(journal.reg.executionId, generation, journal.reg.planIdentity, task.id, commit);
    ok := AddEntry(journal, round.promoteView, round.promoteFate, generation, s);
  }

  /** Reads the recovery context again, for the accepted entries; None where it is refused. */
  method Reread(journal: ProgressJournal, view: View, generation: int) returns (accepted: Option<seq<Entry>>)
    requires journal.progress.Some?
    ensures accepted.Some? ==>
      Loads(journal.reg, view.repo, journal.Contents()) && accepted.value == journal.progress.value.accepted
  {
    var again := journal.RecoveryContext(view, generation);
    accepted := if again.Success? then Some(again.value.accepted) else None;
  }

  /** The first context: the journal loads, and its candidates fit and chain from its tip. */
  method FirstContext(journal: ProgressJournal, view: View, generation: int) returns (r: Option<Context>)
    requires journal.reg.manifest.Some?
    ensures r.Some? ==>
      (&& journal.progress.Some? && IsContext(journal.reg, view, journal.Contents(), r.value)
       && journal.progress.value.taskIds == TaskIds(journal.reg)
       && r.value.accepted == journal.progress.value.accepted
       && |r.value.accepted| + |r.value.candidates| <= |TaskIds(journal.reg)|
       && Ancestor(view.repo.history, Tip(journal.progress.value), view.repo.head))
  {
    var first := journal.RecoveryContext(view, generation);
    r := if first.Success? && !first.value.legacy then Some(first.value) else None;
    if r.Some? && r.value.accepted != [] {
      assert LinkedEntry(view.repo.history, journal.progress.value, |r.value.accepted| - 1);
    }
  }

  lemma AllCollected(reg: Registration, before: Progress, view: View, candidates: seq<Commit>, generation: int,
                     now: Progress)
    requires Collecting(reg, before, candidates, |candidates|, generation, now)
    requires Ancestor(view.repo.history, Tip(before), view.repo.head) && Fits(before, view.repo, candidates)
    ensures Tip(now) == view.repo.head
  {
    assert candidates[..|candidates|] == candidates;
    ExtendedCommits(before, candidates, generation, now);
    ChainEndsAtHead(view.repo.history, Tip(before), view.repo.head, candidates);
  }

  method CollectCheckpoints(journal: ProgressJournal, generation: int, start: View, reviewer: string,
                            rounds: seq<Round>, finish: View)
    returns (r: Result<Collected, Refusal>, original: Option<Context>)
    modifies journal
    // Without a manifest there is nothing to collect.
    ensures journal.reg.manifest.None? ==>
      r == Success(Collected(true, 0, false)) && journal.Contents() == old(journal.Contents())
    // Before a first context is read nothing is written.
    ensures original.None? ==> journal.Contents() == old(journal.Contents())
    ensures original.Some? ==>
      (&& old(journal.progress).Some? && journal.progress.Some?
       && IsContext(journal.reg, start, old(journal.Contents()), original.value))
    // Whatever happens then, a beginning of the candidates was accepted and nothing else.
    ensures original.Some? ==>
      exists n :: 0 <= n <= |original.value.candidates|
        && Collecting(journal.reg, old(journal.progress).value, original.value.candidates, n, generation,
                      journal.progress.value)
    // On success the whole range up to the head seen at the start is accepted, task by task.
    ensures r.Success? && journal.reg.manifest.Some? ==>
      (&& original.Some?
       && Collecting(journal.reg, old(journal.progress).value, original.value.candidates, |original.value.candidates|,
                     generation, journal.progress.value)
       && Tip(journal.progress.value) == start.repo.head
       && Loads(journal.reg, finish.repo, journal.Contents())
       && r.value.accepted == |journal.progress.value.accepted| && r.value.guarantee
       && (r.value.complete <==> |journal.progress.value.accepted| == |journal.reg.manifest.value|))
  {
    original := None;
    if journal.reg.manifest.None? {
      return Success(Collected(true, 0, false)), None;
    }
    var tasks := journal.reg.manifest.value;
    original := FirstContext(journal, start, generation);
    if original.None? {
      return Failure(Refused), None;
    }
    var context := original.value;
    ghost var before := journal.progress.value;
    CollectingStarts(journal.reg, before, context.candidates, generation);
    var firstEver := context.accepted == [];
    var n := 0;
    while n < |context.candidates|
      invariant 0 <= n <= |context.candidates| && journal.progress.Some?
      invariant Collecting(journal.reg, before, context.candidates, n, generation, journal.progress.value)
    {
      if n >= |rounds| {
        return Failure(Refused), original;
      }
      var ok := CollectOne(journal, before, context, n, generation, firstEver, reviewer, rounds[n]);
      if !ok {
        return Failure(Refused), original;
      }
      n := n + 1;
      var again := Reread(journal, rounds[n - 1].after, generation);
      if again.None? {
        return Failure(Refused), original;
      }
      firstEver := again.value == [];
    }
    AllCollected(journal.reg, before, start, context.candidates, generation, journal.progress.value);
    var final := Reread(journal, finish, generation);
    if final.None? {
      return Failure(Refused), original;
    }
    r := Success(Collected(|final.value| == |tasks|, |final.value|, true));
  }
}
