/**
 Delivers an approved change: nowhere, to a branch of its own, or to a pull request.
 */
module Publish {
  import opened Prelude
  import opened Workspace

  type RunId = string

  // The branches of the repository a checkout was cloned from.
  type Remote = map<string, Tree>

  datatype Mode = PublishNothing | PublishBranch | PublishPullRequest

  // A push can raise, made or not: what git prints need not be text.
  datatype Push = Pushed | PushRefused | PushRaises(made: bool)

  // What the push and the pull request come to; a non-GitHub remote or a missing token is a
  // refused pull request.
  datatype Luck = Luck(push: Push, pullRequest: Option<string>)

  datatype PublishResult = PublishResult(mode: Mode, published: bool, branch: Option<string>,
      pullRequestUrl: Option<string>, failed: bool)

  const BRANCH_PREFIX := "agentic-patch"

  function BranchName(run: RunId): string {
    BRANCH_PREFIX + "/" + run
  }

  // Pushing HEAD needs a HEAD.
  predicate Lands(w: Checkout, push: Push) {
    w.head.Some? && (push.Pushed? || (push.PushRaises? && push.made))
  }

  function PushBranch(w: Checkout, run: RunId, push: Push, remote: Remote): Remote
    requires Valid(w)
  {
    if Lands(w, push) then remote[BranchName(run) := Tracked(w)] else remote
  }

  // No result: it raised.
  function PublishChange(mode: Mode, w: Checkout, run: RunId, luck: Luck, remote: Remote)
    : (Remote, Option<PublishResult>)
    requires Valid(w)
  {
    if mode.PublishNothing? then (remote, Some(PublishResult(mode, false, None, None, false)))
    else
      var after := PushBranch(w, run, luck.push, remote);
      if luck.push.PushRaises? then (after, None)
      else if !Lands(w, luck.push) then (after, Some(PublishResult(mode, false, None, None, true)))
      else if mode.PublishBranch? then (after, Some(PublishResult(mode, true, Some(BranchName(run)), None, false)))
      else
        (after, Some(PublishResult(mode, true, Some(BranchName(run)), luck.pullRequest, luck.pullRequest.None?)))
  }

  // `published` means exactly that this run's branch now holds the commit the checkout is on.  A
  // failed pull request does not take that back, and no branch of any other run is touched.  Only
  // when the call raises can the branch hold the commit with nobody told.
  lemma PublishedMeansPushed(mode: Mode, w: Checkout, run: RunId, luck: Luck, remote: Remote, other: RunId)
    requires Valid(w)
    ensures var (after, r) := PublishChange(mode, w, run, luck, remote);
            && (r.None? <==> !mode.PublishNothing? && luck.push.PushRaises?)
            && (r.None? ==> after == remote || after == remote[BranchName(run) := Tracked(w)])
            && (r.Some? ==>
                  && (r.value.published <==> !mode.PublishNothing? && luck.push.Pushed? && w.head.Some?)
                  && r.value.mode == mode
                  && (r.value.published ==> r.value.branch == Some(BranchName(run)))
                  && (r.value.published ==>
                        r.value.pullRequestUrl == if mode.PublishPullRequest? then luck.pullRequest else None)
                  && (r.value.published ==> after == remote[BranchName(run) := Tracked(w)])
                  && (!r.value.published ==>
                        r.value.branch.None? && r.value.pullRequestUrl.None? && after == remote)
                  && (r.value.failed <==>
                        !mode.PublishNothing?
                        && (!r.value.published || (mode.PublishPullRequest? && luck.pullRequest.None?))))
            && (other != run ==> (BranchName(other) in after <==> BranchName(other) in remote))
            && (other != run && BranchName(other) in remote ==> after[BranchName(other)] == remote[BranchName(other)])
  {
    var n := |BRANCH_PREFIX + "/"|;
    assert BranchName(run)[n..] == run && BranchName(other)[n..] == other;
  }
}
