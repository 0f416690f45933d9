/**
 A checkout of the target service: its commits, the one it is on, and the files on disk.

 What git decides from the outside world (ignore rules, which paths are bytecode, whether a
 command fails) is a parameter.
 */
module Workspace {
  import opened Prelude

  type Path = string
  type Tree = map<Path, string>
  type CommitId = nat

  datatype Checkout = Checkout(commits: seq<Tree>, head: Option<CommitId>, files: Tree)

  // ignored: by the ignore files of the given working tree.  bytecode: what a commit unstages.
  // place: where a write to a relative path ends up in the given working tree, or None when it raises:
  // the path leads outside, a directory stands there, or a file stands in its way.
  datatype Rules = Rules(ignored: (Tree, Path) -> bool, bytecode: Path -> bool, place: (Tree, Path) -> Option<Path>)

  predicate Valid(w: Checkout) {
    w.head.Some? ==> w.head.value < |w.commits|
  }

  function Tracked(w: Checkout): Tree
    requires Valid(w)
  {
    if w.head.Some? then w.commits[w.head.value] else map[]
  }

  // ---- Writing ----

  type Files = seq<(Path, string)>

  // Up to the first path that cannot be written; the files before it are on disk by then.
  function Write(r: Rules, files: Tree, code: Files): (Tree, bool)
    decreases |code|
  {
    if code == [] then (files, true)
    else
      var at := r.place(files, code[0].0);
      if at.None? then (files, false) else Write(r, files[at.value := code[0].1], code[1..])
  }

  // One more file is written last, over whatever was there, unless something before it or itself
  // could not be written.
  lemma {:induction false} WritesInOrder(r: Rules, files: Tree, code: Files, p: Path, content: string)
    ensures Write(r, files, []) == (files, true)
    ensures var (before, ok) := Write(r, files, code);
            Write(r, files, code + [(p, content)])
              == if ok && r.place(before, p).Some? then (before[r.place(before, p).value := content], true)
                 else (before, false)
    decreases |code|
  {
    if code == [] {
      assert ([] + [(p, content)])[1..] == [];
    } else if r.place(files, code[0].0).Some? {
      assert (code + [(p, content)])[1..] == code[1..] + [(p, content)];
      WritesInOrder(r, files[r.place(files, code[0].0).value := code[0].1], code[1..], p, content);
    }
  }

  // ---- Committing ----

  // What `add -A` followed by unstaging the bytecode leaves in the index.
  function Staged(r: Rules, w: Checkout): Tree
    requires Valid(w)
  {
    var tracked := Tracked(w);
    map p | p in w.files.Keys + tracked.Keys
        && (if r.bytecode(p) then p in tracked else p in w.files && (p in tracked || !r.ignored(w.files, p)))
      :: if r.bytecode(p) then tracked[p] else w.files[p]
  }

  // An empty `status --porcelain`.
  predicate Unchanged(r: Rules, w: Checkout)
    requires Valid(w)
  {
    && Staged(r, w) == Tracked(w)
    && (forall p | p in Tracked(w) :: p in w.files && w.files[p] == Tracked(w)[p])
    && (forall p | p in w.files && p !in Tracked(w) :: r.ignored(w.files, p))
  }

  datatype Commit = NothingToCommit | Committed(id: CommitId) | CommitFailed

  // How the commands of a commit go: staging covers everything up to the status.
  datatype CommitLuck = CommandsWork | StagingFails | CommitFails

  // `git commit` itself refuses an index that equals HEAD.
  function CommitAll(r: Rules, w: Checkout, luck: CommitLuck): (Checkout, Commit)
    requires Valid(w)
  {
    if luck.StagingFails? then (w, CommitFailed)
    else if Unchanged(r, w) then (w, NothingToCommit)
    else if luck.CommitFails? || Staged(r, w) == Tracked(w) then (w, CommitFailed)
    else (w.(commits := w.commits + [Staged(r, w)], head := Some(|w.commits|)), Committed(|w.commits|))
  }

  // A commit adds one tree and changes nothing else: every file that is neither ignored nor bytecode,
  // as it is on disk, and bytecode only as it already was in the history.
  lemma CommitMeaning(r: Rules, w: Checkout, luck: CommitLuck, p: Path)
    requires Valid(w) && CommitAll(r, w, luck).1.Committed?
    ensures var after := CommitAll(r, w, luck).0;
            && Valid(after) && after.files == w.files
            && after.commits[..|w.commits|] == w.commits && |after.commits| == |w.commits| + 1
            && after.head == Some(|w.commits|)
            && (r.bytecode(p) ==> (p in Tracked(after) <==> p in Tracked(w)))
            && (r.bytecode(p) && p in Tracked(w) ==> Tracked(after)[p] == Tracked(w)[p])
            && (!r.bytecode(p) && p !in Tracked(w) ==>
                (p in Tracked(after) <==> p in w.files && !r.ignored(w.files, p)))
            && (!r.bytecode(p) && p in Tracked(w) ==> (p in Tracked(after) <==> p in w.files))
            && (!r.bytecode(p) && p in Tracked(after) ==> Tracked(after)[p] == w.files[p])
  {
  }

  // A commit is made exactly when git works and some path, bytecode apart, is not as the commit has it:
  // changed or gone, or new and not ignored.
  lemma CommitsExactlyWhen(r: Rules, w: Checkout, luck: CommitLuck)
    requires Valid(w)
    ensures CommitAll(r, w, luck).1.Committed? <==> luck.CommandsWork? && exists p :: Differs(r, w, p)
    ensures !CommitAll(r, w, luck).1.Committed? ==> CommitAll(r, w, luck).0 == w
    ensures luck.CommitFails? && (exists p :: Differs(r, w, p)) ==> CommitAll(r, w, luck).1.CommitFailed?
    ensures luck.StagingFails? ==> CommitAll(r, w, luck).1.CommitFailed?
  {
    if p :| Differs(r, w, p) {
      assert p in Staged(r, w) <==> p in w.files;
      assert p in Staged(r, w) ==> Staged(r, w)[p] == w.files[p];
      assert Staged(r, w) != Tracked(w);
    } else {
      forall p ensures p in Staged(r, w) <==> p in Tracked(w) {
        assert !Differs(r, w, p);
      }
      forall p | p in Tracked(w) ensures Staged(r, w)[p] == Tracked(w)[p] {
        assert !Differs(r, w, p);
      }
      assert Staged(r, w) == Tracked(w);
    }
  }

  predicate Differs(r: Rules, w: Checkout, p: Path)
    requires Valid(w)
  {
    && !r.bytecode(p)
    && if p in Tracked(w) then p !in w.files || w.files[p] != Tracked(w)[p]
       else p in w.files && !r.ignored(w.files, p)
  }

  predicate StrayBytecode(r: Rules, w: Checkout, p: Path)
    requires Valid(w)
  {
    && r.bytecode(p)
    && if p in Tracked(w) then p !in w.files || w.files[p] != Tracked(w)[p]
       else p in w.files && !r.ignored(w.files, p)
  }

  // With nothing to commit the call is a no-op exactly when staging works and no bytecode lies about
  // that git would report: one such file turns "nothing changed" into an error.
  lemma NoOpSafety(r: Rules, w: Checkout, luck: CommitLuck)
    requires Valid(w) && Staged(r, w) == Tracked(w)
    ensures CommitAll(r, w, luck)
         == (w, if luck.StagingFails? || exists p :: StrayBytecode(r, w, p) then CommitFailed else NothingToCommit)
  {
    if Unchanged(r, w) {
      forall p ensures !StrayBytecode(r, w, p) {
      }
    } else {
      var staged := Staged(r, w);
      if p :| p in Tracked(w) && (p !in w.files || w.files[p] != Tracked(w)[p]) {
        assert p in staged;
        assert StrayBytecode(r, w, p);
      } else {
        var p :| p in w.files && p !in Tracked(w) && !r.ignored(w.files, p);
        assert p !in staged;
        assert StrayBytecode(r, w, p);
      }
    }
  }

  lemma NoOpSafetyFails() returns (r: Rules, w: Checkout)
    ensures Valid(w) && Staged(r, w) == Tracked(w) && CommitAll(r, w, CommandsWork).1.CommitFailed?
  {
    r := Rules((_, _) => false, p => p == "a.pyc", (_, p) => Some(p));
    w := Checkout([map["a" := "x"]], Some(0), map["a" := "x", "a.pyc" := "y"]);
    assert StrayBytecode(r, w, "a.pyc");
    assert Staged(r, w) == Tracked(w);
    NoOpSafety(r, w, CommandsWork);
  }

  // Committing twice: what the first call committed, the second leaves alone, or trips over stray
  // bytecode.
  lemma CommitTwice(r: Rules, w: Checkout, luck: CommitLuck)
    requires Valid(w) && CommitAll(r, w, luck).1.Committed?
    ensures var after := CommitAll(r, w, luck).0;
            && Valid(after) && Staged(r, after) == Tracked(after)
            && CommitAll(r, after, luck)
               == (after, if exists p :: StrayBytecode(r, after, p) then CommitFailed else NothingToCommit)
  {
    var after := CommitAll(r, w, luck).0;
    forall p ensures p in Staged(r, after) <==> p in Tracked(after)
    {
      CommitMeaning(r, w, luck, p);
    }
    forall p | p in Tracked(after) ensures Staged(r, after)[p] == Tracked(after)[p] {
      CommitMeaning(r, w, luck, p);
    }
    assert Staged(r, after) == Tracked(after);
    NoOpSafety(r, after, luck);
  }

  // ---- Reverting ----

  // Tracked files as the commit has them; files git does not track stay.
  function ResetFiles(w: Checkout, c: CommitId): Tree
    requires Valid(w) && c < |w.commits|
  {
    var target := w.commits[c];
    map p | p in w.files.Keys + target.Keys && (p in target || p !in Tracked(w))
      :: if p in target then target[p] else w.files[p]
  }

  // `clean -fd` spares what the ignore files on disk at that moment cover.
  function CleanFiles(r: Rules, files: Tree, target: Tree): Tree {
    map p | p in files && (p in target || r.ignored(files, p)) :: files[p]
  }

  // How a revert goes: each command succeeds, or fails leaving some files behind.
  datatype RevertLuck = Works | ResetFails(leaves: Tree) | CleanFails(leaves: Tree)

  function RevertTo(r: Rules, w: Checkout, c: CommitId, luck: RevertLuck): (Checkout, bool)
    requires Valid(w) && c < |w.commits|
  {
    match luck
    case ResetFails(leaves) => (w.(files := leaves), false)
    case CleanFails(leaves) => (w.(head := Some(c), files := leaves), false)
    case Works => (w.(head := Some(c), files := CleanFiles(r, ResetFiles(w, c), w.commits[c])), true)
  }

  // The files of a commit, and besides them only ignored ones.
  ghost predicate Restored(r: Rules, before: Checkout, c: CommitId, after: Checkout) {
    && c < |before.commits| && after.commits == before.commits && after.head == Some(c)
    && (forall p | p in before.commits[c] :: p in after.files && after.files[p] == before.commits[c][p])
    && (forall p | p in after.files && p !in before.commits[c] ::
          Valid(before) && p in before.files && p !in Tracked(before) && after.files[p] == before.files[p]
          && r.ignored(ResetFiles(before, c), p))
  }

  lemma RevertRestores(r: Rules, w: Checkout, c: CommitId)
    requires Valid(w) && c < |w.commits|
    ensures RevertTo(r, w, c, Works).1 && Restored(r, w, c, RevertTo(r, w, c, Works).0)
  {
  }

  // A revert works exactly when both its commands do; whatever happens the history stays, and HEAD is
  // the commit unless the reset itself failed.  When it works a file is left exactly if the commit has
  // it, or if git did not track it and ignores it once the tracked files are reset.
  lemma RevertMeaning(r: Rules, w: Checkout, c: CommitId, luck: RevertLuck, p: Path) returns (reset: Tree)
    requires Valid(w) && c < |w.commits|
    ensures forall q :: q in reset <==> q in w.commits[c] || (q in w.files && q !in Tracked(w))
    ensures forall q | q in reset :: reset[q] == if q in w.commits[c] then w.commits[c][q] else w.files[q]
    ensures var (after, ok) := RevertTo(r, w, c, luck);
            && (ok <==> luck.Works?) && after.commits == w.commits
            && after.head == (if luck.ResetFails? then w.head else Some(c))
            && (!luck.Works? ==> after.files == luck.leaves)
            && (luck.Works? ==>
                  && (p in after.files <==>
                        p in w.commits[c] || (p in w.files && p !in Tracked(w) && r.ignored(reset, p)))
                  && (p in after.files ==>
                        after.files[p] == if p in w.commits[c] then w.commits[c][p] else w.files[p]))
  {
    reset := ResetFiles(w, c);
  }

  // Reverting to the commit a checkout was cloned at gives the clone back exactly when the ignore
  // rules in force after the reset cover none of the files written since.
  lemma RevertUndoesEverything(r: Rules, clone: Checkout, w: Checkout)
    requires Valid(clone) && clone.head.Some? && clone.files == Tracked(clone)
    requires w.commits == clone.commits && w.head == clone.head
    ensures RevertTo(r, w, clone.head.value, Works).0 == clone
       <==> forall p | p in w.files && p !in clone.files :: !r.ignored(ResetFiles(w, clone.head.value), p)
  {
    var reset := ResetFiles(w, clone.head.value);
    var after := RevertTo(r, w, clone.head.value, Works).0;
    RevertRestores(r, w, clone.head.value);
    assert forall p :: p in w.files && p !in clone.files ==> p in reset && (p in after.files <==> r.ignored(reset, p));
    if forall p | p in w.files && p !in clone.files :: !r.ignored(reset, p) {
      assert after.files == clone.files;
    }
  }

  // ---- The object ----

  class Repository {
    var commits: seq<Tree>
    var head: Option<CommitId>
    var files: Tree

    function State(): Checkout
      reads this
    {
      Checkout(commits, head, files)
    }

    method WriteCodeFiles(r: Rules, code: Files) returns (ok: bool)
      modifies this`files
      ensures (files, ok) == Write(r, old(files), code)
    {
      var i := 0;
      assert code[0..] == code;
      while i < |code|
        invariant i <= |code|
        invariant Write(r, files, code[i..]) == Write(r, old(files), code)
      {
        assert code[i..][0] == code[i] && code[i..][1..] == code[i + 1..];
        var at := r.place(files, code[i].0);
        if at.None? {
          return false;
        }
        files := files[at.value := code[i].1];
        i := i + 1;
      }
      return true;
    }

    method GitCommitAll(r: Rules, luck: CommitLuck) returns (c: Commit)
      requires Valid(State())
      modifies this
      ensures (State(), c) == CommitAll(r, old(State()), luck)
    {
      if luck.StagingFails? {
        return CommitFailed;
      }
      var staged := Staged(r, State());
      if Unchanged(r, State()) {
        return NothingToCommit;
      }
      if luck.CommitFails? || staged == Tracked(State()) {
        return CommitFailed;
      }
      commits, head := commits + [staged], Some(|commits|);
      return Committed(head.value);
    }

    method GitRevertTo(r: Rules, c: CommitId, luck: RevertLuck) returns (ok: bool)
      requires Valid(State()) && c < |commits|
      modifies this
      ensures (State(), ok) == RevertTo(r, old(State()), c, luck)
    {
      if luck.ResetFails? {
        files := luck.leaves;
        return false;
      }
      files := ResetFiles(State(), c);
      head := Some(c);
      if luck.CleanFails? {
        files := luck.leaves;
        return false;
      }
      files := CleanFiles(r, files, commits[c]);
      return true;
    }
  }
}
