/** The path arithmetic of the Git helper. A tool is built from a directory
    `path`; every query first asks whether `path + "/.git"` exists, which is
    modelled by the set of paths that exist on the file system. */
module GitTool {
  import opened Common
  import opened Text

  /** `git_path`, fixed at construction. */
  function GitPath(path: string): string {
    path + "/.git"
  }

  /** `is_git_repo`: `os.path.exists(git_path)` against a snapshot of the file system. */
  predicate IsGitRepo(path: string, existing: set<string>) {
    GitPath(path) in existing
  }

  function Segments(s: string): seq<string> {
    SplitOn(s, '/')
  }

  function RepoName(path: string, existing: set<string>): Option<string> {
    if IsGitRepo(path, existing) then Some(Last(Segments(path))) else None
  }

  function RepoPath(path: string, existing: set<string>): Option<string> {
    if IsGitRepo(path, existing) then Some(GitPath(path)) else None
  }

  /** The git path always has at least two segments, so index -2 is in range. */
  function RepoUrl(path: string, existing: set<string>): Option<string> {
    if IsGitRepo(path, existing) then
      var parts := Segments(GitPath(path));
      GitPathSegments(path);
      Some(parts[|parts| - 2])
    else None
  }

  function RepoBranch(path: string, existing: set<string>): Option<string> {
    if IsGitRepo(path, existing) then Some(Last(Segments(GitPath(path)))) else None
  }

  function CommitId(path: string, existing: set<string>): Option<string> {
    if IsGitRepo(path, existing) then Some(Last(Segments(GitPath(path)))) else None
  }

  function CommitIdShort(path: string, existing: set<string>): Option<string> {
    if IsGitRepo(path, existing) then Some(Take(CommitId(path, existing).value, 7)) else None
  }

  function CommitIdLong(path: string, existing: set<string>): Option<string> {
    if IsGitRepo(path, existing) then CommitId(path, existing) else None
  }

  /** The segments of the git path are those of `path` followed by ".git". */
  lemma GitPathSegments(path: string)
    ensures Segments(GitPath(path)) == Segments(path) + [".git"]
  {
    assert GitPath(path) == path + ['/'] + ".git";
    SplitOnAtSep(path, '/', ".git");
    assert Find(".git", '/') == 4;
  }

  /** Without an existing `.git` every query answers None. */
  lemma QueriesNoneOutsideRepo(path: string, existing: set<string>)
    requires !IsGitRepo(path, existing)
    ensures RepoName(path, existing) == None && RepoPath(path, existing) == None
    ensures RepoUrl(path, existing) == None && RepoBranch(path, existing) == None
    ensures CommitId(path, existing) == None && CommitIdShort(path, existing) == None
    ensures CommitIdLong(path, existing) == None
  {
  }

  /** Inside a repository every query answers something. */
  lemma QueriesSomeInsideRepo(path: string, existing: set<string>)
    requires IsGitRepo(path, existing)
    ensures RepoName(path, existing).Some? && RepoPath(path, existing) == Some(path + "/.git")
    ensures RepoUrl(path, existing).Some? && RepoBranch(path, existing).Some?
    ensures CommitId(path, existing).Some? && CommitIdShort(path, existing).Some?
    ensures CommitIdLong(path, existing).Some?
  {
  }

  /** The repository name is the text after the last '/': the whole path when it has
      no '/', and empty when the path ends with '/'. */
  lemma RepoNameIsLastSegment(path: string, existing: set<string>)
    requires IsGitRepo(path, existing)
    ensures var name := RepoName(path, existing).value;
      && '/' !in name
      && EndsWith(path, name)
      && (|name| == |path| || path[|path| - |name| - 1] == '/')
    ensures '/' !in path ==> RepoName(path, existing) == Some(path)
    ensures (path != [] && path[|path| - 1] == '/') ==> RepoName(path, existing) == Some("")
  {
    var name := Last(Segments(path));
    LastPieceIsTail(path, '/');
    assert name in Segments(path);
    if '/' !in path {
      assert Find(path, '/') == |path|;
    }
  }

  /** The "url" query is the second-to-last segment of the git path, which is
      always the repository name. */
  lemma RepoUrlIsRepoName(path: string, existing: set<string>)
    ensures RepoUrl(path, existing) == RepoName(path, existing)
  {
    GitPathSegments(path);
  }

  /** The "branch", the commit id in both lengths are always ".git" inside a repository:
      they read the last segment of the git path, not Git metadata. */
  lemma BranchAndCommitAreDotGit(path: string, existing: set<string>)
    requires IsGitRepo(path, existing)
    ensures RepoBranch(path, existing) == Some(".git")
    ensures CommitId(path, existing) == Some(".git")
    ensures CommitIdShort(path, existing) == Some(".git")
    ensures CommitIdLong(path, existing) == CommitId(path, existing)
  {
    GitPathSegments(path);
  }
}
