/** Branch helpers over pygit2 objects. A branch is reduced to its
    `branch_name` and to what reading its `remote_name` attribute gives:
    the name, or the error the attribute raises (a `ValueError` for a
    local branch). `Repository.merge_base` is an uninterpreted function
    parameter. */
module Git {
  import opened Wrappers

  /** The error raised by reading `remote_name`. */
  datatype LookupError = ValueError | OtherError(message: string)

  /** The outcome of reading `branch.remote_name`. */
  datatype RemoteLookup = Named(name: string) | Raises(error: LookupError)

  datatype Branch = Branch(branchName: string, remoteName: RemoteLookup)

  /** Python's `s[n:]` for `n >= 0`: empty once `n` passes the end. */
  function DropPrefix(s: string, n: nat): (r: string)
    ensures |r| == if n <= |s| then |s| - n else 0
    ensures r == s[|s| - |r|..]
  {
    if n <= |s| then s[n..] else ""
  }

  /** `get_local_branch_name`: drops `remote_name` and the "/" after it;
      reading `remote_name` on a local branch raises. */
  function GetLocalBranchName(b: Branch): (r: Result<string, LookupError>)
    ensures r.Failure? <==> b.remoteName.Raises?
    ensures r.Failure? ==> r.error == b.remoteName.error
    ensures r.Success? ==> |r.value| == if |b.remoteName.name| + 1 <= |b.branchName| then |b.branchName| - |b.remoteName.name| - 1 else 0
    ensures r.Success? ==> r.value == b.branchName[|b.branchName| - |r.value|..]
  {
    match b.remoteName
    case Raises(e) => Failure(e)
    case Named(remote) => Success(DropPrefix(b.branchName, |remote + "/"|))
  }

  /** A remote branch named `remote/s` has the local name `s`. */
  lemma LocalNameOfRemoteBranch(remote: string, s: string)
    ensures GetLocalBranchName(Branch(remote + "/" + s, Named(remote))) == Success(s)
  {
    var full := remote + "/" + s;
    assert full[|remote| + 1..] == s;
  }

  /** When the branch name starts with the remote and "/", putting them back
      in front of the local name gives the branch name again. */
  lemma RemotePrefixRestores(b: Branch)
    requires b.remoteName.Named?
    requires |b.remoteName.name| + 1 <= |b.branchName|
    requires b.branchName[..|b.remoteName.name| + 1] == b.remoteName.name + "/"
    ensures GetLocalBranchName(b).Success?
    ensures b.remoteName.name + "/" + GetLocalBranchName(b).value == b.branchName
  {
    var n := |b.remoteName.name| + 1;
    assert b.branchName == b.branchName[..n] + b.branchName[n..];
  }

  /** A branch name no longer than the remote prefix gives "". */
  lemma ShortNameGivesEmpty(b: Branch)
    requires b.remoteName.Named?
    requires |b.branchName| <= |b.remoteName.name| + 1
    ensures GetLocalBranchName(b) == Success("")
  {
  }

  /** `get_remote_name`: the remote name, `None` when reading it raises a
      `ValueError`; any other error propagates. */
  function GetRemoteName(b: Branch): (r: Result<Option<string>, LookupError>)
    ensures r == Success(None) <==> b.remoteName == Raises(ValueError)
    ensures b.remoteName.Named? <==> r.Success? && r.value.Some?
    ensures r.Success? && r.value.Some? ==> r.value.value == b.remoteName.name
    ensures r.Failure? <==> b.remoteName.Raises? && b.remoteName.error.OtherError?
    ensures r.Failure? ==> r.error == b.remoteName.error
  {
    match b.remoteName
    case Named(n) => Success(Some(n))
    case Raises(ValueError) => Success(None)
    case Raises(e) => Failure(e)
  }

  /** `is_branch_remote`: the truthiness of `get_remote_name`. */
  function IsBranchRemote(b: Branch): (r: Result<bool, LookupError>)
    ensures r == Success(true) <==> b.remoteName.Named? && b.remoteName.name != ""
    ensures r.Failure? <==> GetRemoteName(b).Failure?
  {
    match GetRemoteName(b)
    case Failure(e) => Failure(e)
    case Success(None) => Success(false)
    case Success(Some(n)) => Success(n != "")
  }

  /** A local branch is not remote, and neither is one whose remote name is
      empty; a remote branch also has a local name. */
  lemma {:induction false} BranchKinds(b: Branch)
    ensures b.remoteName == Raises(ValueError) ==> IsBranchRemote(b) == Success(false)
    ensures b.remoteName == Named("") ==> IsBranchRemote(b) == Success(false)
    ensures IsBranchRemote(b) == Success(true) ==> GetLocalBranchName(b).Success?
  {
    if b.remoteName == Raises(ValueError) {
      assert GetRemoteName(b) == Success(None);
    }
  }

  /** `is_rebased_on`: the merge base of `target` and `reference`, asked
      for with `target` first, is `target` itself. `merge_base` gives
      `None` when the two have no common ancestor. */
  function IsRebasedOn(mergeBase: (string, string) -> Option<string>, reference: string, target: string): (r: bool)
    ensures r ==> mergeBase(target, reference).Some?
    ensures r <==> mergeBase(target, reference) == Some(target)
  {
    mergeBase(target, reference) == Some(target)
  }

  /** The laws of a merge base in a history where any two commits share an
      ancestor: the greatest common ancestor is idempotent, commutative and
      associative. */
  ghost predicate MeetLaws(mergeBase: (string, string) -> Option<string>) {
    && (forall a :: mergeBase(a, a) == Some(a))
    && (forall a, b :: mergeBase(a, b) == mergeBase(b, a))
    && (forall a, b, c, ab, bc ::
          mergeBase(a, b) == Some(ab) && mergeBase(b, c) == Some(bc) ==> mergeBase(ab, c) == mergeBase(a, bc))
  }

  /** Under those laws "rebased on" is a partial order on references. */
  lemma {:induction false} RebasedOnIsPartialOrder(mergeBase: (string, string) -> Option<string>, a: string, b: string, c: string)
    requires MeetLaws(mergeBase)
    ensures IsRebasedOn(mergeBase, a, a)
    ensures IsRebasedOn(mergeBase, a, b) && IsRebasedOn(mergeBase, b, a) ==> a == b
    ensures IsRebasedOn(mergeBase, a, b) && IsRebasedOn(mergeBase, b, c) ==> IsRebasedOn(mergeBase, a, c)
  {
    assert mergeBase(a, a) == Some(a);
    if IsRebasedOn(mergeBase, a, b) && IsRebasedOn(mergeBase, b, a) {
      assert mergeBase(b, a) == mergeBase(a, b);
    }
    if IsRebasedOn(mergeBase, a, b) && IsRebasedOn(mergeBase, b, c) {
      assert mergeBase(c, b) == Some(c) && mergeBase(b, a) == Some(b);
      assert mergeBase(c, a) == mergeBase(c, b);
    }
  }

  /** Rebased on `target` means `target` is the merge base whichever way
      round the two are passed, when the merge base is commutative. */
  lemma ArgumentOrder(mergeBase: (string, string) -> Option<string>, reference: string, target: string)
    requires forall a, b :: mergeBase(a, b) == mergeBase(b, a)
    ensures IsRebasedOn(mergeBase, reference, target) <==> mergeBase(reference, target) == Some(target)
  {
    assert mergeBase(reference, target) == mergeBase(target, reference);
  }
}
