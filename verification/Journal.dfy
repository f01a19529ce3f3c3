/**
 * The progress journal of one execution: receipts and accepted commits, written to
 * `progress.json`, and the digest of that file, written second to `progress-anchor.json`
 * (agent_checkpoint.py). Digests are the digested value itself, so they are injective.
 */
module Journal {
  import opened Common
  import opened CommitGraph

  // ---- registered facts ------------------------------------------------------------------

  /** A task of the pinned manifest; a check is None where the command is refused as unsupported. */
  datatype Task = Task(id: string, checks: Option<seq<Option<seq<string>>>>)

  /** The immutable registration of the execution, as far as the journal reads it. */
  datatype Registration = Registration(executionId: string, planIdentity: string, branch: string,
                                       manifest: Option<seq<Task>>, baseSha: Option<Commit>, progressVersioned: bool)

  /** A pinned manifest lists at least one task, each under its own id. */
  predicate ManifestUsable(reg: Registration) {
    reg.manifest.Some? ==>
      (&& reg.manifest.value != []
       && forall i, j :: 0 <= i < j < |reg.manifest.value| ==> reg.manifest.value[i].id != reg.manifest.value[j].id)
  }

  function TaskIds(reg: Registration): (ids: seq<string>)
    ensures reg.manifest.None? ==> ids == []
    ensures reg.manifest.Some? ==> |ids| == |reg.manifest.value|
    ensures reg.manifest.Some? ==> forall i :: 0 <= i < |ids| ==> ids[i] == reg.manifest.value[i].id
  {
    match reg.manifest
    case None => []
    case Some(tasks) => seq(|tasks|, i requires 0 <= i < |tasks| => tasks[i].id)
  }

  // ---- journal contents --------------------------------------------------------------------

  datatype Kind = Verification | Review

  datatype Check = Check(argv: seq<string>, exitCode: int)

  datatype Evidence = Checks(checks: seq<Check>) | Verdict(reviewer: string, receiptId: string, outcome: string)

  datatype Digest<T> = Digest(content: T)

  datatype Receipt = Receipt(generation: int, taskId: string, commit: Commit, kind: Kind,
                             evidence: Evidence, evidenceDigest: Digest<Evidence>, planIdentity: string)

  datatype Claim = Claim(taskId: string, commit: Commit, generation: int, previous: Commit)

  datatype Entry = Entry(claim: Claim, digest: Digest<Claim>)

  datatype Progress = Progress(executionId: string, planIdentity: string, manifestDigest: Digest<Option<seq<Task>>>,
                               taskIds: seq<string>, base: Commit, accepted: seq<Entry>, receipts: seq<Receipt>)

  function Commits(accepted: seq<Entry>): (commits: seq<Commit>)
    ensures |commits| == |accepted| && forall i :: 0 <= i < |accepted| ==> commits[i] == accepted[i].claim.commit
  {
    seq(|accepted|, i requires 0 <= i < |accepted| => accepted[i].claim.commit)
  }

  /** The commit the next one must have as its only parent. */
  function Tip(p: Progress): Commit {
    LastOf(p.base, Commits(p.accepted))
  }

  /** Names are one to 128 characters; the allowed alphabet is not modelled. */
  predicate IsName(s: string) {
    1 <= |s| <= 128
  }

  predicate ValidEvidence(kind: Kind, evidence: Evidence) {
    match evidence
    case Checks(checks) =>
      kind == Verification && 1 <= |checks| <= 64 &&
      forall i :: 0 <= i < |checks| ==> checks[i].exitCode == 0 && 1 <= |checks[i].argv| <= 64
    case Verdict(reviewer, receiptId, outcome) =>
      kind == Review && IsName(reviewer) && IsName(receiptId) && outcome == "accepted"
  }

  predicate ValidReceipt(r: Receipt, p: Progress) {
    && r.generation >= 1
    && r.taskId in p.taskIds
    && r.planIdentity == p.planIdentity
    && ValidEvidence(r.kind, r.evidence)
    && r.evidenceDigest == Digest(r.evidence)
  }

  predicate Has(receipts: seq<Receipt>, generation: int, taskId: string, commit: Commit, kind: Kind) {
    exists r ::
      r in receipts && r.generation == generation && r.taskId == taskId && r.commit == commit && r.kind == kind
  }

  predicate Receipted(receipts: seq<Receipt>, c: Claim) {
    && Has(receipts, c.generation, c.taskId, c.commit, Verification)
    && Has(receipts, c.generation, c.taskId, c.commit, Review)
  }

  // ---- what a journal must satisfy to load ----------------------------------------------------

  predicate Pinned(reg: Registration, p: Progress) {
    && ManifestUsable(reg)
    && p.executionId == reg.executionId
    && p.planIdentity == reg.planIdentity
    && p.manifestDigest == Digest(reg.manifest)
    && p.taskIds == TaskIds(reg)
    && (reg.baseSha.Some? ==> p.base == reg.baseSha.value)
  }

  /** Entry `i` is for task `i`, is receipted, and links to the entry before it. */
  predicate LinkedEntry(h: History, p: Progress, i: nat)
    requires i < |p.accepted|
  {
    var previous := CommitBefore(p.base, Commits(p.accepted), i);
    var e := p.accepted[i];
    && i < |p.taskIds| && e.claim.taskId == p.taskIds[i]
    && e.claim.previous == previous && e.digest == Digest(e.claim)
    && Receipted(p.receipts, e.claim)
    && e.claim.commit != previous
    && SoleParent(h, previous, e.claim.commit)
  }

  predicate Linked(h: History, p: Progress) {
    forall i :: 0 <= i < |p.accepted| ==> LinkedEntry(h, p, i)
  }

  predicate WellFormed(reg: Registration, h: History, p: Progress) {
    && Pinned(reg, p)
    && (forall r :: r in p.receipts ==> ValidReceipt(r, p))
    && Linked(h, p)
  }

  datatype Files = Files(progress: Option<Progress>, anchor: Option<Digest<Progress>>)

  predicate Sealed(f: Files) {
    f.progress.Some? && f.anchor == Some(Digest(f.progress.value))
  }

  /** The journal was replaced and its anchor was not. */
  predicate Torn(f: Files) {
    f.progress.Some? && f.anchor != Some(Digest(f.progress.value))
  }

  const NOTHING := Files(None, None)

  predicate Loads(reg: Registration, repo: Repo, f: Files) {
    Sealed(f) && (f.progress.value.accepted != [] ==> repo.responds) && WellFormed(reg, repo.history, f.progress.value)
  }

  // ---- what the operations write ---------------------------------------------------------------

  /**
   * How a write of both files ends: refused or stopped before the first, stopped between, stopped
   * after both were replaced but before that was certain, or done.
   */
  datatype Fate = StoppedBefore | StoppedBetween | StoppedAfter | Done

  function Write(f: Files, p: Progress, fate: Fate): Files {
    match fate
    case StoppedBefore => f
    case StoppedBetween => Files(Some(p), f.anchor)
    case StoppedAfter => Files(Some(p), Some(Digest(p)))
    case Done => Files(Some(p), Some(Digest(p)))
  }

  /** What one call sees: the worktree, and the generation of the last attempt if there is one. */
  datatype View = View(repo: Repo, generation: Option<int>)

  /** The worktree is on the pinned branch, quiet, and ahead of or at `tip`. */
  predicate GitReady(reg: Registration, repo: Repo, tip: Commit) {
    && repo.Readable()
    && repo.branch == reg.branch
    && !repo.hiddenFlags
    && !repo.busy
    && Ancestor(repo.history, tip, repo.head)
  }

  function NewProgress(reg: Registration, repo: Repo): Progress {
    Progress(reg.executionId, reg.planIdentity, Digest(reg.manifest), TaskIds(reg),
             if reg.baseSha.Some? then reg.baseSha.value else repo.head, [], [])
  }

  /** The journal is absent, nothing says it was lost, and no attempt ran without one. */
  predicate MayStart(reg: Registration, view: View, f: Files) {
    && f == NOTHING
    && view.generation.None?
    && ManifestUsable(reg)
    && GitReady(reg, view.repo, NewProgress(reg, view.repo).base)
  }

  datatype Submission = Submission(executionId: string, generation: int, planIdentity: string, taskId: string,
                                   commit: Commit)

  function NewReceipt(p: Progress, generation: int, taskId: string, commit: Commit, kind: Kind,
                      evidence: Evidence): Receipt {
    Receipt(generation, taskId, commit, kind, evidence, Digest(evidence), p.planIdentity)
  }

  predicate MayReceipt(reg: Registration, view: View, f: Files, r: Receipt) {
    && view.generation == Some(r.generation)
    && Loads(reg, view.repo, f)
    && GitReady(reg, view.repo, Tip(f.progress.value))
    && ValidReceipt(r, f.progress.value)
    && Ancestor(view.repo.history, r.commit, view.repo.head)
  }

  function NewEntry(p: Progress, generation: int, taskId: string, commit: Commit): Entry {
    var claim := Claim(taskId, commit, generation, Tip(p));
    Entry(claim, Digest(claim))
  }

  predicate MayPromote(reg: Registration, view: View, f: Files, generation: int, s: Submission) {
    && view.generation == Some(generation)
    && Loads(reg, view.repo, f)
    && s.generation == generation && s.executionId == reg.executionId && s.planIdentity == f.progress.value.planIdentity
    && |f.progress.value.accepted| < |f.progress.value.taskIds|
    && s.taskId == f.progress.value.taskIds[|f.progress.value.accepted|]
    && GitReady(reg, view.repo, Tip(f.progress.value))
    && s.commit != Tip(f.progress.value)
    && SoleParent(view.repo.history, Tip(f.progress.value), s.commit)
    && Ancestor(view.repo.history, s.commit, view.repo.head)
    && Receipted(f.progress.value.receipts, Claim(s.taskId, s.commit, generation, Tip(f.progress.value)))
  }

  function WithReceipt(p: Progress, r: Receipt): Progress {
    p.(receipts := p.receipts + [r])
  }

  function WithEntry(p: Progress, e: Entry): Progress {
    p.(accepted := p.accepted + [e])
  }

  /** The writing operations, each with what it sees and how its write ends. */
  datatype Op =
    | Initialize(view: View, fate: Fate)
    | Record(view: View, fate: Fate, generation: int, taskId: string, commit: Commit, kind: Kind, evidence: Evidence)
    | Promote(view: View, fate: Fate, generation: int, submission: Option<Submission>)

  /** The journal an operation sets out to write, if it writes. */
  function Intends(reg: Registration, f: Files, op: Op): Option<Progress> {
    match op
    case Initialize(view, _) =>
      if MayStart(reg, view, f) then Some(NewProgress(reg, view.repo)) else None
    case Record(view, _, generation, taskId, commit, kind, evidence) =>
      if f.progress.None? then None
      else
        var r := NewReceipt(f.progress.value, generation, taskId, commit, kind, evidence);
        if MayReceipt(reg, view, f, r) && r !in f.progress.value.receipts then Some(WithReceipt(f.progress.value, r))
        else None
    case Promote(view, _, generation, s) =>
      if s.Some? && MayPromote(reg, view, f, generation, s.value)
      then Some(WithEntry(f.progress.value, NewEntry(f.progress.value, generation, s.value.taskId, s.value.commit)))
      else None
  }

  function After(reg: Registration, f: Files, op: Op): Files {
    match Intends(reg, f, op)
    case None => f
    case Some(p) => Write(f, p, op.fate)
  }

  // ---- the journal object -----------------------------------------------------------------------

  /** FileNotFoundError is told apart from every other refusal. */
  datatype Refusal = Missing | Refused

  datatype Mode = Resume | RecoveryValidation | VerificationOnly

  datatype Context = Context(mode: Mode, head: Commit, accepted: seq<Entry>, currentTask: Option<string>,
                             candidates: seq<Commit>, dirty: bool, status: string, guarantee: bool, legacy: bool)

  /** The journal the recovery context is computed from: the loaded one, or an empty stand-in at HEAD. */
  function Effective(reg: Registration, repo: Repo, f: Files): Progress {
    if f.progress.Some? then f.progress.value
    else Progress(reg.executionId, reg.planIdentity, Digest(reg.manifest), [], repo.head, [], [])
  }

  predicate ContextReady(reg: Registration, view: View, f: Files, generation: int) {
    && view.generation == Some(generation)
    && (Loads(reg, view.repo, f) || (f == NOTHING && !reg.progressVersioned))
    && GitReady(reg, view.repo, Tip(Effective(reg, view.repo, f)))
  }

  /** The listing shows unaccepted work that fits the remaining tasks and is a chain of single parents. */
  ghost predicate Fits(p: Progress, repo: Repo, listing: seq<Commit>) {
    && Lists(repo.history, Tip(p), repo.head, listing)
    && (p.taskIds != [] ==> |p.accepted| + |listing| <= |p.taskIds|)
    && Chain(repo.history, Tip(p), listing)
  }

  ghost predicate IsContext(reg: Registration, view: View, f: Files, c: Context) {
    var p := Effective(reg, view.repo, f);
    && Fits(p, view.repo, c.candidates)
    && c.head == view.repo.head && c.accepted == p.accepted && c.status == view.repo.status
    && c.dirty == (c.status != "") && c.guarantee == (p.taskIds != []) && c.legacy == f.progress.None?
    && c.currentTask == (if |p.accepted| < |p.taskIds| then Some(p.taskIds[|p.accepted|]) else None)
    && (c.mode == Resume <==> p.taskIds != [] && c.candidates == [] && |p.accepted| != |p.taskIds|)
    && (c.mode == VerificationOnly <==> p.taskIds != [] && c.candidates == [] && |p.accepted| == |p.taskIds|)
  }

  /** Follows a listing from `base`, requiring each commit to have the one before it as its only parent. */
  method FollowChain(h: History, base: Commit, listing: seq<Commit>) returns (ok: bool)
    ensures ok <==> Chain(h, base, listing)
  {
    var parent := base;
    for i := 0 to |listing|
      invariant parent == if i == 0 then base else listing[i - 1]
      invariant forall k :: 0 <= k < i ==> SoleParent(h, CommitBefore(base, listing, k), listing[k])
    {
      if !SoleParent(h, parent, listing[i]) {
        assert parent == CommitBefore(base, listing, i);
        return false;
      }
      parent := listing[i];
    }
    ok := true;
  }

  class ProgressJournal {
    const reg: Registration
    var progress: Option<Progress>
    var anchor: Option<Digest<Progress>>

    constructor (reg: Registration)
      ensures this.reg == reg && Contents() == NOTHING
    {
      this.reg := reg;
      progress, anchor := None, None;
    }

    function Contents(): Files
      reads this
    {
      Files(progress, anchor)
    }

    method WriteFiles(p: Progress, fate: Fate) returns (done: bool)
      modifies this
      ensures Contents() == Write(old(Contents()), p, fate)
      ensures done <==> fate.Done?
    {
      if fate.StoppedBefore? {
        return false;
      }
      progress := Some(p);
      if fate.StoppedBetween? {
        return false;
      }
      anchor := Some(Digest(p));
      done := fate.Done?;
    }

    method Load(repo: Repo) returns (r: Result<Progress, Refusal>)
      ensures r.Success? <==> Loads(reg, repo, Contents())
      ensures r.Success? ==> Some(r.value) == progress
      ensures r == Failure(Missing) <==> progress.None?
    {
      if progress.None? {
        return Failure(Missing);
      }
      var p := progress.value;
      if !Pinned(reg, p) {
        return Failure(Refused);
      }
      for i := 0 to |p.receipts|
        invariant forall k :: 0 <= k < i ==> ValidReceipt(p.receipts[k], p)
      {
        if !ValidReceipt(p.receipts[i], p) {
          return Failure(Refused);
        }
      }
      assert forall x :: x in p.receipts ==> ValidReceipt(x, p);
      var previous := p.base;
      for i := 0 to |p.accepted|
        invariant previous == if i == 0 then p.base else p.accepted[i - 1].claim.commit
        invariant forall k :: 0 <= k < i ==> LinkedEntry(repo.history, p, k)
        invariant i > 0 ==> repo.responds
      {
        var e := p.accepted[i];
        if i >= |p.taskIds| || e.claim.taskId != p.taskIds[i]
           || e.claim.previous != previous || e.digest != Digest(e.claim) {
          assert !LinkedEntry(repo.history, p, i);
          return Failure(Refused);
        }
        if !Receipted(p.receipts, e.claim) || e.claim.commit == previous
           || !repo.responds || !SoleParent(repo.history, previous, e.claim.commit) {
          assert !repo.responds || !LinkedEntry(repo.history, p, i);
          return Failure(Refused);
        }
        assert LinkedEntry(repo.history, p, i);
        previous := e.claim.commit;
      }
      if anchor != Some(Digest(p)) {
        return Failure(Refused);
      }
      r := Success(p);
    }

    method Initialize(view: View, fate: Fate) returns (r: Result<Progress, Refusal>)
      modifies this
      ensures Contents() == After(reg, old(Contents()), Op.Initialize(view, fate))
      ensures r.Success? <==> (|| Loads(reg, view.repo, old(Contents()))
                               || (MayStart(reg, view, old(Contents())) && fate.Done?))
      ensures r.Success? ==> Some(r.value) == progress
    {
      var loaded := Load(view.repo);
      if loaded != Failure(Missing) {
        return loaded;
      }
      if anchor.Some? || view.generation.Some? || !ManifestUsable(reg) {
        return Failure(Refused);
      }
      var p := NewProgress(reg, view.repo);
      if !GitReady(reg, view.repo, Tip(p)) {
        return Failure(Refused);
      }
      var done := WriteFiles(p, fate);
      r := if done then Success(p) else Failure(Refused);
    }

    method RecordReceipt(view: View, fate: Fate, generation: int, taskId: string, commit: Commit, kind: Kind,
                         evidence: Evidence)
      returns (ok: bool)
      modifies this
      ensures Contents() == After(reg, old(Contents()), Record(view, fate, generation, taskId, commit, kind, evidence))
      ensures ok <==>
        (&& old(progress).Some?
         && var r := NewReceipt(old(progress).value, generation, taskId, commit, kind, evidence);
            MayReceipt(reg, view, old(Contents()), r) && (fate.Done? || r in old(progress).value.receipts))
    {
      if view.generation != Some(generation) {
        return false;
      }
      var loaded := Load(view.repo);
      if loaded.Failure? {
        return false;
      }
      var p := loaded.value;
      if !GitReady(reg, view.repo, Tip(p)) {
        return false;
      }
      var receipt := NewReceipt(p, generation, taskId, commit, kind, evidence);
      if !ValidReceipt(receipt, p) || !Ancestor(view.repo.history, commit, view.repo.head) {
        return false;
      }
      if receipt in p.receipts {
        return true;
      }
      ok := WriteFiles(WithReceipt(p, receipt), fate);
    }

    method PromoteSubmission(view: View, fate: Fate, generation: int, submission: Option<Submission>) returns (ok: bool)
      modifies this
      ensures Contents() == After(reg, old(Contents()), Promote(view, fate, generation, submission))
      ensures ok <==> (&& submission.Some?
                       && MayPromote(reg, view, old(Contents()), generation, submission.value)
                       && fate.Done?)
    {
      if view.generation != Some(generation) || submission.None? {
        return false;
      }
      var s := submission.value;
      var loaded := Load(view.repo);
      if loaded.Failure? {
        return false;
      }
      var p := loaded.value;
      if s.generation != generation || s.executionId != reg.executionId || s.planIdentity != p.planIdentity {
        return false;
      }
      var index := |p.accepted|;
      if index >= |p.taskIds| || s.taskId != p.taskIds[index] {
        return false;
      }
      var previous := Tip(p);
      if !GitReady(reg, view.repo, previous) || s.commit == previous
         || !SoleParent(view.repo.history, previous, s.commit)
         || !Ancestor(view.repo.history, s.commit, view.repo.head)
         || !Receipted(p.receipts, Claim(s.taskId, s.commit, generation, previous)) {
        return false;
      }
      ok := WriteFiles(WithEntry(p, NewEntry(p, generation, s.taskId, s.commit)), fate);
    }

    method RecoveryContext(view: View, generation: int) returns (r: Result<Context, Refusal>)
      ensures r.Success? ==>
        ContextReady(reg, view, Contents(), generation) && IsContext(reg, view, Contents(), r.value)
      ensures r.Failure? && ContextReady(reg, view, Contents(), generation) ==>
        exists listing ::
          (&& Lists(view.repo.history, Tip(Effective(reg, view.repo, Contents())), view.repo.head, listing)
                           && !Fits(Effective(reg, view.repo, Contents()), view.repo, listing))
    {
      if view.generation != Some(generation) {
        return Failure(Refused);
      }
      var loaded := Load(view.repo);
      var legacy := false;
      var p := Effective(reg, view.repo, Contents());
      if loaded == Failure(Missing) {
        if anchor.Some? || reg.progressVersioned {
          return Failure(Refused);
        }
        legacy := true;
      } else if loaded.Failure? {
        return Failure(Refused);
      }
      if !GitReady(reg, view.repo, Tip(p)) {
        return Failure(Refused);
      }
      var candidates := RevList(view.repo.history, Tip(p), view.repo.head);
      var count := |p.accepted|;
      if p.taskIds != [] && |candidates| > |p.taskIds| - count {
        return Failure(Refused);
      }
      var chained := FollowChain(view.repo.history, Tip(p), candidates);
      if !chained {
        return Failure(Refused);
      }
      var mode := Resume;
      if p.taskIds == [] || candidates != [] {
        mode := RecoveryValidation;
      } else if count == |p.taskIds| {
        mode := VerificationOnly;
      }
      r := Success(Context(mode, view.repo.head, p.accepted,
                           if count < |p.taskIds| then Some(p.taskIds[count]) else None,
                           candidates, view.repo.status != "", view.repo.status, p.taskIds != [], legacy));
    }
  }
}
