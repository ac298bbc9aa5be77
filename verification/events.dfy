/** The delivery events the webhook receives and how they are reduced to the
    repository and branch a computation runs for. */
module Events {
  import opened Optional
  import opened Text

  /** The prefix of a ref that names a branch. */
  const HeadsPrefix: string := "refs/heads/"

  /** A parsed webhook event. Missing fields read as "", as the nil-safe
      getters return them. */
  datatype Event =
    | Push(repoFullName: string, ref: string)
    | WorkflowRun(repoFullName: string, headBranch: string)
    | Ping
    | CheckRun(repoFullName: string, headBranch: string)
    | CheckSuite(repoFullName: string, headBranch: string)
    | Unhandled(kind: string)

  /** The repository (as "owner/name") and branch to compute metrics for. */
  datatype Target = Target(repoFullName: string, branch: string)

  /** The branch a pushed ref names: the ref with a leading "refs/heads/"
      removed once, and the ref itself when it has no such prefix. */
  function BranchFromRef(ref: string): (branch: string)
    ensures IsPrefix(HeadsPrefix, ref) ==> HeadsPrefix + branch == ref
    ensures !IsPrefix(HeadsPrefix, ref) ==> branch == ref
  {
    TrimPrefix(ref, HeadsPrefix)
  }

  /** A branch ref gives back exactly the branch name, even one that itself
      contains slashes or starts with the prefix again. */
  lemma BranchOfHeadsRef(name: string)
    ensures BranchFromRef(HeadsPrefix + name) == name
  {
    assert (HeadsPrefix + name)[..|HeadsPrefix|] == HeadsPrefix;
  }

  /** The push ref of a release branch names the release branch. */
  lemma ReleaseRefExample()
    ensures BranchFromRef("refs/heads/release/1.2") == "release/1.2"
  {
    BranchOfHeadsRef("release/1.2");
    assert HeadsPrefix + "release/1.2" == "refs/heads/release/1.2";
  }

  /** The owner: everything before the first "/", or the whole name. */
  function Owner(repoFullName: string): (owner: string)
    ensures '/' !in owner
    ensures IsPrefix(owner, repoFullName)
    ensures owner == repoFullName || repoFullName[|owner|] == '/'
  {
    var parts := Split(repoFullName, '/');
    JoinSplit(repoFullName, '/');
    assert |parts| == 1 || Join(parts, '/') == parts[0] + ['/'] + Join(parts[1..], '/');
    parts[0]
  }

  /** The repository: the text between the first and the second "/". Without
      any "/" there is no second part and the lookup fails (`None`). */
  function Repo(repoFullName: string): (repo: Option<string>)
    ensures repo.Some? <==> '/' in repoFullName
    ensures repo.Some? ==> '/' !in repo.value
  {
    var parts := Split(repoFullName, '/');
    assert '/' in repoFullName <==> multiset(repoFullName)['/'] > 0;
    if |parts| >= 2 then Some(parts[1]) else None
  }

  /** The repository part is exactly the text between the first "/" and the
      next one, or the end of the name when there is no second "/". */
  lemma RepoIsSecondPart(repoFullName: string)
    requires '/' in repoFullName
    ensures
      var upTo := Owner(repoFullName) + "/" + Repo(repoFullName).value;
      IsPrefix(upTo, repoFullName) && (upTo == repoFullName || repoFullName[|upTo|] == '/')
  {
    var parts := Split(repoFullName, '/');
    JoinSplit(repoFullName, '/');
    assert |parts| >= 2 by {
      assert multiset(repoFullName)['/'] > 0;
    }
    var tail := Join(parts[1..], '/');
    assert repoFullName == parts[0] + "/" + tail;
    if |parts| == 2 {
      assert tail == parts[1];
    } else {
      assert parts[1..][1..] == parts[2..];
      assert tail == parts[1] + "/" + Join(parts[2..], '/');
      assert repoFullName == parts[0] + "/" + parts[1] + ("/" + Join(parts[2..], '/'));
    }
  }

  /** A name with exactly one "/" is its owner and repository joined by "/". */
  lemma OwnerRepoRoundTrip(repoFullName: string)
    requires Occurrences(repoFullName, '/') == 1
    ensures Repo(repoFullName).Some?
    ensures Owner(repoFullName) + "/" + Repo(repoFullName).value == repoFullName
  {
    var parts := Split(repoFullName, '/');
    assert '/' in repoFullName by {
      assert multiset(repoFullName)['/'] > 0;
    }
    JoinSplit(repoFullName, '/');
    assert |parts| == 2;
    assert parts[1..] == [parts[1]];
    assert Join(parts, '/') == parts[0] + ['/'] + parts[1];
  }

  /** Push and workflow-run events name a repository and branch; every other
      event, ping and check events included, names nothing. */
  function Normalize(e: Event): (t: Option<Target>)
    ensures t.Some? <==> e.Push? || e.WorkflowRun?
    ensures e.Push? ==> t == Some(Target(e.repoFullName, BranchFromRef(e.ref)))
    ensures e.WorkflowRun? ==> t == Some(Target(e.repoFullName, e.headBranch))
  {
    match e
    case Push(repo, ref) => Some(Target(repo, BranchFromRef(ref)))
    case WorkflowRun(repo, branch) => Some(Target(repo, branch))
    case Ping => None
    case CheckRun(_, _) => None
    case CheckSuite(_, _) => None
    case Unhandled(_) => None
  }

  /** A push to a branch targets that branch. */
  lemma PushTargetsBranch(repoFullName: string, name: string)
    ensures Normalize(Push(repoFullName, HeadsPrefix + name)) == Some(Target(repoFullName, name))
  {
    BranchOfHeadsRef(name);
  }
}
