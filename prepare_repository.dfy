/** Preparing a job's repository: parse the issue URL, fork the upstream
    repository, bring the fork up to date, clone it and fetch the issue. The
    GitHub API and the clone process are foreign; their answers are the
    `GitHubReplies` a caller passes in. */
module PrepareRepository {
  import opened JsText
  import opened RepositoryName
  import opened JobLog
  import opened Processes

  /** What the head of `prepareRepository` reads off the issue URL. */
  datatype IssueRef = IssueRef(owner: Option<string>, repo: string, repoUrl: string, issueNumber: Option<int>)

  const IssuesSlash := "/issues/"

  /** Lines 17-24 of prepareRepository: the repository URL is the text before
      the first "/issues", `repo` and `owner` its last and second-to-last
      "/"-segments (`owner` is undefined when there is a single segment), and
      the issue number `parseInt` of the text 8 characters after the
      "/issues" position (NaN, here `None`, when no digits start there). */
  function ParseIssueUrl(issueUrl: string): (ref: IssueRef)
    ensures ref.repoUrl == RepoUrlOf(issueUrl)
    ensures ref.repo == ExtractRepositoryName(issueUrl)
    ensures ref.owner.None? <==> '/' !in ref.repoUrl
    ensures ref.owner.None? ==> ref.repo == ref.repoUrl
    ensures ref.owner.Some? ==>
              '/' !in ref.owner.value && EndsWith(ref.repoUrl, ref.owner.value + "/" + ref.repo)
  {
    var repoUrl := RepoUrlOf(issueUrl);
    var seg := SegmentsOf(repoUrl);
    IssueRef(seg.owner, seg.repo, repoUrl, IssueNumberOf(issueUrl))
  }

  /** The last two "/"-segments of a repository URL. */
  datatype Segments = Segments(owner: Option<string>, repo: string)

  /** `repo` is the last "/"-segment and `owner`, when there are two or more,
      the one before it, so that the URL ends with "owner/repo". */
  function SegmentsOf(repoUrl: string): (seg: Segments)
    ensures var parts := Split(repoUrl, '/'); seg.repo == parts[|parts| - 1]
    ensures seg.owner.None? <==> '/' !in repoUrl
    ensures seg.owner.None? ==> seg.repo == repoUrl
    ensures seg.owner.Some? ==>
              '/' !in seg.owner.value && EndsWith(repoUrl, seg.owner.value + "/" + seg.repo)
  {
    var parts := Split(repoUrl, '/');
    SplitTail(repoUrl, '/');
    Segments(if |parts| >= 2 then Some(parts[|parts| - 2]) else None, parts[|parts| - 1])
  }

  /** `parseInt(issueUrl.substring(issueIndex + "/issues/".length))`. */
  function IssueNumberOf(issueUrl: string): Option<int> {
    ParseInt(SubstringFrom(issueUrl, IndexOf(issueUrl, IssuesPath) + |IssuesSlash|))
  }

  /** For a URL `x/owner/repo/issues/<n>…` whose first "/issues" follows the
      repository segment: the owner, the repository and the number. */
  lemma ParseIssueUrlOfShape(x: string, owner: string, repo: string, n: nat, rest: string)
    requires '/' !in owner && '/' !in repo
    requires !Contains(x + "/" + owner + "/" + repo + "/issue", IssuesPath)
    requires rest == [] || (!IsDigit(rest[0]) && rest[0] != 'x' && rest[0] != 'X')
    ensures var ref := ParseIssueUrl(x + "/" + owner + "/" + repo + IssuesPath + ("/" + NatToString(n) + rest));
            && ref.owner == Some(owner) && ref.repo == repo
            && ref.repoUrl == x + "/" + owner + "/" + repo
            && ref.issueNumber == Some(n)
  {
    var a := x + "/" + owner + "/" + repo;
    var tail := "/" + NatToString(n) + rest;
    RepoUrlOfFirst(a, tail);
    SegmentsOfShape(x, owner, repo);
    IssueNumberOfShape(a, n, rest);
  }

  lemma SegmentsOfShape(x: string, owner: string, repo: string)
    requires '/' !in owner && '/' !in repo
    ensures SegmentsOf(x + "/" + owner + "/" + repo) == Segments(Some(owner), repo)
  {
    RepoUrlShape(x, owner, repo);
    SplitLastTwo(x, '/', owner, repo);
  }

  lemma IssueNumberOfShape(a: string, n: nat, rest: string)
    requires !Contains(a + "/issue", IssuesPath)
    requires rest == [] || (!IsDigit(rest[0]) && rest[0] != 'x' && rest[0] != 'X')
    ensures IssueNumberOf(a + IssuesPath + ("/" + NatToString(n) + rest)) == Some(n)
  {
    ConcatAssoc("/", NatToString(n), rest);
    IssueNumberAfter(a, "/" + NatToString(n) + rest, NatToString(n) + rest);
    ParseIntNatToString(n, rest);
  }

  /** The text 8 characters after the first "/issues" of `a + "/issues/" + t`. */
  lemma IssueNumberAfter(a: string, tail: string, t: string)
    requires !Contains(a + "/issue", IssuesPath)
    requires tail == "/" + t
    ensures IssueNumberOf(a + IssuesPath + tail) == ParseInt(t)
  {
    assert IssuesPath[..|IssuesPath| - 1] == "/issue";
    IndexOfFirst(a, IssuesPath, tail);
    DropAfter(a, IssuesPath, "/", t);
    assert SubstringFrom(a + IssuesPath + tail, |a| + |IssuesSlash|) == t;
  }

  /** The issue URL shown on the home page. */
  lemma HubIssueRef()
    ensures ParseIssueUrl("https://github.com/getAlby/hub/issues/1")
            == IssueRef(Some("getAlby"), "hub", "https://github.com/getAlby/hub", Some(1))
  {
    HubHasNoEarlierIssues();
    ParseIssueUrlOfShape("https://github.com", "getAlby", "hub", 1, "");
    HubIssueUrlParts();
  }

  lemma HubIssueUrlParts()
    ensures "https://github.com" + "/" + "getAlby" + "/" + "hub" + IssuesPath + ("/" + NatToString(1) + "")
            == "https://github.com/getAlby/hub/issues/1"
    ensures "https://github.com" + "/" + "getAlby" + "/" + "hub" == "https://github.com/getAlby/hub"
  {
    assert NatToString(1) == "1";
  }

  // ---------------------------------------------------------------------------
  // The preparation sequence

  datatype Issue = Issue(title: string, body: Option<string>)

  /** The answers of the foreign calls, in the order they are made. Errors
      are given as the text `"" + error` renders. */
  datatype GitHubReplies = GitHubReplies(
    fork: Outcome,                    // repos.createFork
    upstream: Result<string, string>, // repos.get: the default branch
    merge: Result<string, string>,    // repos.mergeUpstream: the sync message
    cloneExit: ExitCode,              // the 'close' code of `git clone`
    issue: Result<Issue, string>)     // issues.get

  datatype Prepared = Prepared(owner: Option<string>, repo: string, issueContent: string, issueNumber: Option<int>)

  const CaughtPrefix := "Error caught while preparing repository: "
  const CloneNonZero := "clone process exited with non-success code: "
  const NoDescriptionWarning := "The issue has no description. Add a description for better results."

  /** `String(body)` for the issue body: null renders as "null". */
  function BodyText(body: Option<string>): string {
    match body
    case Some(b) => b
    case None => "null"
  }

  /** `!issueBody`: null or empty. */
  predicate NoDescription(body: Option<string>) { body == None || body == Some("") }

  /** `issue.data.title + "\n\n" + issueBody`. */
  function IssueContent(issue: Issue): (content: string)
    ensures StartsWith(content, issue.title + "\n\n")
    ensures issue.body.None? ==> content == issue.title + "\n\nnull"
    ensures issue.body.Some? ==> content == issue.title + "\n\n" + issue.body.value
  {
    var content := issue.title + "\n\n" + BodyText(issue.body);
    StartsWithPrefix(issue.title + "\n\n", BodyText(issue.body));
    content
  }

  /** The settled value of `prepareRepository`: the first failing awaited
      step rejects it (the fork step excepted, whose failure is logged and
      passed over). */
  function PrepareResult(ref: IssueRef, gh: GitHubReplies): Result<Prepared, string> {
    if gh.upstream.Err? then Err(gh.upstream.error)
    else if gh.merge.Err? then Err(gh.merge.error)
    else if gh.cloneExit != Code(0) then Err(SettleExact(gh.cloneExit, CloneNonZero).error)
    else if gh.issue.Err? then Err(gh.issue.error)
    else Ok(Prepared(ref.owner, ref.repo, IssueContent(gh.issue.value), ref.issueNumber))
  }

  function Caught(error: string): Entry { Entry(Error, CaughtPrefix + error) }

  /** The entries `prepareRepository` writes, in order. */
  function PrepareLog(gh: GitHubReplies): seq<Entry> {
    PrepareHead + ForkLog(gh.fork) + [Entry(Info, "getting upstream repository data")] + AfterUpstreamLog(gh)
  }

  const PrepareHead := [Entry(Info, "extracted repository from issue URL"), Entry(Info, "forking repository")]

  function ForkLog(fork: Outcome): seq<Entry> {
    if fork.Fail? then [Entry(Error, "Failed to fork repo")] else []
  }

  function AfterUpstreamLog(gh: GitHubReplies): seq<Entry> {
    if gh.upstream.Err? then [Caught(gh.upstream.error)]
    else if gh.merge.Err? then
      [Entry(Info, "ensuring fork is up to date"), Entry(Error, "Failed to update fork"), Caught(gh.merge.error)]
    else
      [Entry(Info, "ensuring fork is up to date"), Entry(Info, "Synced fork"), Entry(Info, "cloning forked repository")]
      + AfterCloneLog(gh)
  }

  function AfterCloneLog(gh: GitHubReplies): seq<Entry> {
    if gh.cloneExit != Code(0) then
      [Entry(Info, "clone process exited with non-success code"),
       Caught(SettleExact(gh.cloneExit, CloneNonZero).error)]
    else if gh.issue.Err? then [Caught(gh.issue.error)]
    else if NoDescription(gh.issue.value.body) then [Entry(Warn, NoDescriptionWarning)]
    else []
  }

  /** `prepareRepository(jobLogger, jobId, issueUrl)`. */
  method Prepare(logger: JobLogger, issueUrl: string, gh: GitHubReplies) returns (r: Result<Prepared, string>)
    modifies logger
    ensures r == PrepareResult(ParseIssueUrl(issueUrl), gh)
    ensures logger.entries == old(logger.entries) + PrepareLog(gh)
  {
    ghost var before := logger.entries;
    var ref := ParseIssueUrl(issueUrl);
    ForkStep(logger, gh.fork);
    logger.Log(Info, "getting upstream repository data");
    r := AfterUpstream(logger, ref, gh);
    ConcatAssoc4(before, PrepareHead + ForkLog(gh.fork), [Entry(Info, "getting upstream repository data")], AfterUpstreamLog(gh));
  }

  /** Up to the fork call, whose failure is logged and passed over. */
  method ForkStep(logger: JobLogger, fork: Outcome)
    modifies logger
    ensures logger.entries == old(logger.entries) + (PrepareHead + ForkLog(fork))
  {
    logger.Log(Info, "extracted repository from issue URL");
    logger.Log(Info, "forking repository");
    if fork.Fail? {
      logger.Log(Error, "Failed to fork repo");
    }
  }

  /** From the upstream lookup on, with the outer catch that logs and
      rethrows. */
  method AfterUpstream(logger: JobLogger, ref: IssueRef, gh: GitHubReplies) returns (r: Result<Prepared, string>)
    modifies logger
    ensures r == PrepareResult(ref, gh)
    ensures logger.entries == old(logger.entries) + AfterUpstreamLog(gh)
  {
    if gh.upstream.Err? {
      logger.Log(Error, CaughtPrefix + gh.upstream.error);
      return Err(gh.upstream.error);
    }
    logger.Log(Info, "ensuring fork is up to date");
    if gh.merge.Err? {
      logger.Log(Error, "Failed to update fork");
      logger.Log(Error, CaughtPrefix + gh.merge.error);
      return Err(gh.merge.error);
    }
    logger.Log(Info, "Synced fork");
    logger.Log(Info, "cloning forked repository");
    r := AfterClone(logger, ref, gh);
  }

  method AfterClone(logger: JobLogger, ref: IssueRef, gh: GitHubReplies) returns (r: Result<Prepared, string>)
    requires gh.upstream.Ok? && gh.merge.Ok?
    modifies logger
    ensures r == PrepareResult(ref, gh)
    ensures logger.entries == old(logger.entries) + AfterCloneLog(gh)
  {
    var cloned := SettleExact(gh.cloneExit, CloneNonZero);
    if cloned.Fail? {
      logger.Log(Info, "clone process exited with non-success code");
      logger.Log(Error, CaughtPrefix + cloned.error);
      return Err(cloned.error);
    }
    if gh.issue.Err? {
      logger.Log(Error, CaughtPrefix + gh.issue.error);
      return Err(gh.issue.error);
    }
    var issue := gh.issue.value;
    if NoDescription(issue.body) {
      logger.Log(Warn, NoDescriptionWarning);
    }
    r := Ok(Prepared(ref.owner, ref.repo, IssueContent(issue), ref.issueNumber));
  }

  // ---------------------------------------------------------------------------
  // Properties of the sequence

  /** Preparation succeeds exactly when the upstream lookup, the fork sync,
      the clone (exit code exactly 0) and the issue lookup all succeed; the
      fork call is not among them. */
  lemma PrepareSucceedsIff(ref: IssueRef, gh: GitHubReplies)
    ensures PrepareResult(ref, gh).Ok? <==>
            gh.upstream.Ok? && gh.merge.Ok? && gh.cloneExit == Code(0) && gh.issue.Ok?
    ensures PrepareResult(ref, gh).Ok? ==>
              PrepareResult(ref, gh).value
              == Prepared(ref.owner, ref.repo, IssueContent(gh.issue.value), ref.issueNumber)
  {
  }

  /** A failed fork is logged and changes nothing else: neither the result
      nor anything logged after it depends on the fork's outcome. */
  lemma ForkFailureNotFatal(ref: IssueRef, gh: GitHubReplies, fork: Outcome)
    ensures PrepareResult(ref, gh.(fork := fork)) == PrepareResult(ref, gh)
    ensures AfterUpstreamLog(gh.(fork := fork)) == AfterUpstreamLog(gh)
    ensures ForkLog(fork) == if fork.Fail? then [Entry(Error, "Failed to fork repo")] else []
  {
  }

  /** A failed fork sync is logged and rethrown, and nothing after it runs. */
  lemma MergeFailureRethrown(ref: IssueRef, gh: GitHubReplies)
    requires gh.upstream.Ok? && gh.merge.Err?
    ensures PrepareResult(ref, gh) == Err(gh.merge.error)
    ensures AfterUpstreamLog(gh) ==
            [Entry(Info, "ensuring fork is up to date"), Entry(Error, "Failed to update fork"), Caught(gh.merge.error)]
  {
  }

  /** Once the fork is in sync, the clone succeeds only on exit code 0; any
      other code, the null of a signal kill included, rejects. */
  lemma CloneNeedsExitZero(ref: IssueRef, gh: GitHubReplies)
    requires gh.upstream.Ok? && gh.merge.Ok?
    ensures gh.cloneExit != Code(0) ==>
              PrepareResult(ref, gh) == Err(ErrorText(CloneNonZero + CodeText(gh.cloneExit)))
  {
  }

  /** Every rejection is logged with the "Error caught" prefix as the last
      entry before it is rethrown. */
  lemma ErrorsLoggedThenRethrown(ref: IssueRef, gh: GitHubReplies)
    ensures PrepareResult(ref, gh).Err? ==>
              var log := PrepareLog(gh);
              log[|log| - 1] == Entry(Error, CaughtPrefix + PrepareResult(ref, gh).error)
  {
  }

  /** An issue without a body still prepares, with a warning in the log and
      the text "null" after the title. */
  lemma NullBodyPrepares(ref: IssueRef, gh: GitHubReplies, title: string)
    requires gh.upstream.Ok? && gh.merge.Ok? && gh.cloneExit == Code(0)
    requires gh.issue == Ok(Issue(title, None))
    ensures PrepareResult(ref, gh).Ok?
    ensures PrepareResult(ref, gh).value.issueContent == title + "\n\nnull"
    ensures PrepareLog(gh)[|PrepareLog(gh)| - 1] == Entry(Warn, NoDescriptionWarning)
  {
  }
}
