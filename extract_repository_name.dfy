/** The repository name of a GitHub issue URL: the last "/"-separated segment
    of the text before the first "/issues". */
module RepositoryName {
  import opened JsText

  const IssuesPath := "/issues"

  /** `issueUrl.substring(0, issueUrl.indexOf("/issues"))`: the text before the
      first "/issues", and the empty text when there is none, because
      `substring(0, -1)` is `substring(0, 0)`. */
  function RepoUrlOf(issueUrl: string): (repoUrl: string)
    ensures IndexOf(issueUrl, IssuesPath) == -1 ==> repoUrl == []
    ensures IndexOf(issueUrl, IssuesPath) != -1 ==>
              StartsWith(issueUrl, repoUrl + IssuesPath) && !Contains(repoUrl, IssuesPath)
  {
    var i := IndexOf(issueUrl, IssuesPath);
    var repoUrl := Substring(issueUrl, 0, i);
    if i == -1 then repoUrl
    else
      PrefixBeforeFirst(issueUrl, IssuesPath, i);
      repoUrl
  }

  /** `extractRepositoryName`: the last part of the repository URL split at "/". */
  function ExtractRepositoryName(issueUrl: string): (repo: string)
    ensures '/' !in repo
    ensures IndexOf(issueUrl, IssuesPath) == -1 ==> repo == []
  {
    var parts := Split(RepoUrlOf(issueUrl), '/');
    parts[|parts| - 1]
  }

  /** The repository name is the text after the last "/" of the repository URL
      (all of it when it has no "/"). */
  lemma RepositoryNameAfterLastSlash(issueUrl: string)
    ensures var repoUrl := RepoUrlOf(issueUrl);
            ExtractRepositoryName(issueUrl) == repoUrl[LastIndexOfChar(repoUrl, '/') + 1..]
  {
    LastPartAfterLastSeparator(RepoUrlOf(issueUrl), '/');
  }

  /** When no "/issues" starts inside `a` (or straddles its end), the
      repository URL of `a + "/issues" + rest` is `a`. */
  lemma RepoUrlOfFirst(a: string, rest: string)
    requires !Contains(a + "/issue", IssuesPath)
    ensures RepoUrlOf(a + IssuesPath + rest) == a
  {
    assert IssuesPath[..|IssuesPath| - 1] == "/issue";
    IndexOfFirst(a, IssuesPath, rest);
    assert (a + IssuesPath + rest)[..|a|] == a;
  }

  /** For a URL `x/owner/repo/issues...` whose first "/issues" follows the
      repository segment, the name is `repo`. */
  lemma RepositoryNameOfShape(x: string, owner: string, repo: string, rest: string)
    requires '/' !in owner && '/' !in repo
    requires !Contains(x + "/" + owner + "/" + repo + "/issue", IssuesPath)
    ensures ExtractRepositoryName(x + "/" + owner + "/" + repo + IssuesPath + rest) == repo
  {
    var a := x + "/" + owner + "/" + repo;
    RepoUrlOfFirst(a, rest);
    RepoUrlShape(x, owner, repo);
    SplitLastTwo(x, '/', owner, repo);
  }

  lemma RepoUrlShape(x: string, owner: string, repo: string)
    ensures x + "/" + owner + "/" + repo == x + ['/'] + (owner + ['/'] + repo)
  {
  }

  /** The issue URL shown on the home page names the repository "hub". */
  lemma HubExample()
    ensures ExtractRepositoryName("https://github.com/getAlby/hub/issues/1") == "hub"
  {
    HubHasNoEarlierIssues();
    RepositoryNameOfShape("https://github.com", "getAlby", "hub", "/1");
    HubUrlParts();
  }

  /** No "/issues" starts before the one after "hub", checked one segment at a time. */
  lemma HubHasNoEarlierIssues()
    ensures !Contains("https://github.com" + "/" + "getAlby" + "/" + "hub" + "/issue", IssuesPath)
  {
    var t := "/issue";
    NoOccurrenceAfterPlain("hub", t, IssuesPath);
    NoOccurrenceAfterMismatch('/', "hub" + t, IssuesPath);
    NoOccurrenceAfterPlain("getAlby", "/" + ("hub" + t), IssuesPath);
    NoOccurrenceAfterMismatch('/', "getAlby" + ("/" + ("hub" + t)), IssuesPath);
    NoOccurrenceAfterPlain("github.com", "/" + ("getAlby" + ("/" + ("hub" + t))), IssuesPath);
    NoOccurrenceAfterMismatch('/', "github.com" + ("/" + ("getAlby" + ("/" + ("hub" + t)))), IssuesPath);
    NoOccurrenceAfterMismatch('/', "/" + ("github.com" + ("/" + ("getAlby" + ("/" + ("hub" + t))))), IssuesPath);
    NoOccurrenceAfterPlain("https:", "/" + ("/" + ("github.com" + ("/" + ("getAlby" + ("/" + ("hub" + t)))))), IssuesPath);
    assert "https:" + ("/" + ("/" + ("github.com" + ("/" + ("getAlby" + ("/" + ("hub" + t)))))))
        == "https://github.com" + "/" + "getAlby" + "/" + "hub" + "/issue";
  }

  lemma HubUrlParts()
    ensures "https://github.com" + "/" + "getAlby" + "/" + "hub" + IssuesPath + "/1"
            == "https://github.com/getAlby/hub/issues/1"
  {
  }
}
