/**
 * The part of Git the checkpoint journal relies on: commits that never change, a finite
 * acyclic parent relation, ancestry, and the listing of the commits of a range.
 */
module CommitGraph {
  import opened Common

  /** A commit, numbered so that its parents have smaller numbers. */
  datatype Commit = Commit(number: nat)

  /** The parents of every known commit. Parents are known and come earlier. */
  type History = h: map<Commit, seq<Commit>> | ParentsComeFirst(h) witness map[]

  predicate ParentsComeFirst(h: map<Commit, seq<Commit>>) {
    forall c, p :: c in h && p in h[c] ==> p in h && p.number < c.number
  }

  /** One look at a worktree. `responds` is false when a Git command fails or times out. */
  datatype Repo = Repo(history: History, head: Commit, responds: bool,
                       branch: string, hiddenFlags: bool, busy: bool, status: string)
  {
    predicate Readable() {
      responds && head in history
    }
  }

  /** `a` is `c` or an ancestor of `c`. */
  predicate Ancestor(h: History, a: Commit, c: Commit)
    decreases c.number
  {
    a in h && c in h && (a == c || exists p :: p in h[c] && p.number < c.number && Ancestor(h, a, p))
  }

  predicate SoleParent(h: History, previous: Commit, commit: Commit) {
    commit in h && h[commit] == [previous]
  }

  function CommitBefore(base: Commit, commits: seq<Commit>, k: nat): Commit
    requires k < |commits|
  {
    if k == 0 then base else commits[k - 1]
  }

  /** Starting at `base`, each commit has the one before it as its only parent. */
  predicate Chain(h: History, base: Commit, commits: seq<Commit>) {
    forall k :: 0 <= k < |commits| ==> SoleParent(h, CommitBefore(base, commits, k), commits[k])
  }

  function LastOf(base: Commit, commits: seq<Commit>): Commit {
    if commits == [] then base else commits[|commits| - 1]
  }

  /** The commits reachable from `head` and not from `previous`. */
  predicate InRange(h: History, previous: Commit, head: Commit, c: Commit) {
    Ancestor(h, c, head) && !Ancestor(h, c, previous)
  }

  /** One of the orders in which the commits of the range may be printed. */
  ghost predicate Lists(h: History, previous: Commit, head: Commit, listing: seq<Commit>) {
    && Distinct(listing)
    && (forall c :: c in listing <==> InRange(h, previous, head, c))
  }

  /** Commits are never rewritten: what was seen early is still there, with the same parents. */
  predicate Within(seen: History, h: History) {
    forall c :: c in seen ==> c in h && h[c] == seen[c]
  }

  lemma {:induction false} AncestorStays(seen: History, h: History, a: Commit, c: Commit)
    requires Within(seen, h) && Ancestor(seen, a, c)
    ensures Ancestor(h, a, c)
    decreases c.number
  {
    if a != c {
      var p :| p in seen[c] && p.number < c.number && Ancestor(seen, a, p);
      AncestorStays(seen, h, a, p);
      assert p in h[c];
    }
  }

  lemma {:induction false} AncestorIsEarlier(h: History, a: Commit, c: Commit)
    requires Ancestor(h, a, c)
    ensures a.number <= c.number && (a.number == c.number ==> a == c)
    decreases c.number
  {
    if a != c {
      var p :| p in h[c] && p.number < c.number && Ancestor(h, a, p);
      AncestorIsEarlier(h, a, p);
    }
  }

  lemma {:induction false} AncestorExtends(h: History, a: Commit, b: Commit, c: Commit)
    requires Ancestor(h, a, b) && Ancestor(h, b, c)
    ensures Ancestor(h, a, c)
    decreases c.number
  {
    if b != c {
      var p :| p in h[c] && p.number < c.number && Ancestor(h, b, p);
      AncestorExtends(h, a, b, p);
    }
  }

  lemma ChainSplits(h: History, base: Commit, commits: seq<Commit>)
    requires Chain(h, base, commits) && commits != []
    ensures Chain(h, base, commits[..|commits| - 1])
    ensures SoleParent(h, LastOf(base, commits[..|commits| - 1]), commits[|commits| - 1])
  {
    var n := |commits| - 1;
    forall k | 0 <= k < n
      ensures SoleParent(h, CommitBefore(base, commits[..n], k), commits[..n][k])
    {
      assert SoleParent(h, CommitBefore(base, commits, k), commits[k]);
    }
    assert SoleParent(h, CommitBefore(base, commits, n), commits[n]);
  }

  /** A chain makes each of its members an ancestor of its last. */
  lemma {:induction false} ChainIsAncestry(h: History, base: Commit, commits: seq<Commit>)
    requires base in h && Chain(h, base, commits)
    ensures Ancestor(h, base, LastOf(base, commits))
    ensures forall c :: c in commits ==> Ancestor(h, c, LastOf(base, commits))
  {
    if commits != [] {
      var n := |commits| - 1;
      var front := commits[..n];
      ChainSplits(h, base, commits);
      ChainIsAncestry(h, base, front);
      var last, before := commits[n], LastOf(base, front);
      assert SoleParent(h, before, last);
      assert before in h[last];
      assert Ancestor(h, before, before) && Ancestor(h, before, last);
      AncestorExtends(h, base, before, last);
      forall c | c in commits
        ensures Ancestor(h, c, last)
      {
        if c in front {
          AncestorExtends(h, c, before, last);
        }
      }
    }
  }

  /** A listing of the whole range that is a chain of single parents ends at the head. */
  lemma ChainEndsAtHead(h: History, previous: Commit, head: Commit, listing: seq<Commit>)
    requires Ancestor(h, previous, head)
    requires Lists(h, previous, head, listing) && Chain(h, previous, listing)
    ensures LastOf(previous, listing) == head
  {
    var last := LastOf(previous, listing);
    ChainIsAncestry(h, previous, listing);
    assert Ancestor(h, head, head);
    if Ancestor(h, head, previous) {
      AncestorExtends(h, head, previous, last);
    } else {
      assert InRange(h, previous, head, head);
    }
    assert Ancestor(h, head, last);
    assert Ancestor(h, last, head) by {
      if listing != [] {
        assert last in listing;
      }
    }
    AncestorIsEarlier(h, head, last);
    AncestorIsEarlier(h, last, head);
  }

  /** Conversely, a chain of single parents from `previous` to `head` is exactly the range. */
  lemma {:induction false} ChainIsRange(h: History, previous: Commit, listing: seq<Commit>)
    requires previous in h && Chain(h, previous, listing)
    ensures Lists(h, previous, LastOf(previous, listing), listing)
  {
    if listing != [] {
      var n := |listing| - 1;
      var front := listing[..n];
      ChainSplits(h, previous, listing);
      ChainIsRange(h, previous, front);
      var last, before := listing[n], LastOf(previous, front);
      assert SoleParent(h, before, last);
      ChainIsAncestry(h, previous, front);
      forall c
        ensures c in listing <==> InRange(h, previous, last, c)
      {
        assert c in listing <==> c in front || c == last;
        RangeStep(h, previous, before, last, c);
      }
      forall i, j | 0 <= i < j < |listing|
        ensures listing[i] != listing[j]
      {
        if j == n {
          assert listing[i] == front[i];
          assert Ancestor(h, front[i], before);
          AncestorIsEarlier(h, front[i], before);
          assert before in h[last];
        } else {
          assert listing[i] == front[i] && listing[j] == front[j];
        }
      }
    } else {
      forall c
        ensures !InRange(h, previous, previous, c)
      {
      }
    }
  }

  lemma RangeStep(h: History, previous: Commit, before: Commit, last: Commit, c: Commit)
    requires SoleParent(h, before, last) && Ancestor(h, previous, before)
    ensures InRange(h, previous, last, c) <==> InRange(h, previous, before, c) || c == last
  {
    assert before in h[last];
    AncestorIsEarlier(h, previous, before);
    if Ancestor(h, last, previous) {
      AncestorIsEarlier(h, last, previous);
      assert false;
    }
    assert Ancestor(h, last, last);
    assert Ancestor(h, c, last) <==> c == last || Ancestor(h, c, before);
  }

  /** Prints a range in some order, which the caller cannot choose. */
  method RevList(h: History, previous: Commit, head: Commit) returns (listing: seq<Commit>)
    ensures Lists(h, previous, head, listing)
  {
    var left := set c | c in h.Keys && InRange(h, previous, head, c);
    listing := [];
    while left != {}
      invariant Distinct(listing)
      invariant forall c :: c in left ==> c !in listing
      invariant forall c :: c in listing || c in left <==> InRange(h, previous, head, c)
      decreases left
    {
      var c :| c in left;
      listing, left := listing + [c], left - {c};
    }
  }
}
