/** Publishing the agent's work: read the branch name, push the branch, read
    the branch's commit log and open a pull request upstream. The git
    processes and the GitHub API are foreign; their answers are the
    `PublishReplies` a caller passes in. */
module Publish {
  import opened JsText
  import opened JobLog
  import opened Processes

  // ---------------------------------------------------------------------------
  // The pull request

  const TitlePrefix := "[Freepilot] "

  /** The title: the branch name cut at its last "-" (the job number goes),
      the first "/" turned into ": " and every "-" into a space. */
  function PrTitle(branch: string): (title: string)
    ensures StartsWith(title, TitlePrefix)
    ensures '-' !in title
  {
    var cut := Substring(branch, 0, LastIndexOfChar(branch, '-'));
    var words := ReplaceAll(ReplaceFirst(cut, '/', ": "), '-', " ");
    StartsWithPrefix(TitlePrefix, words);
    TitlePrefix + words
  }

  /** A branch name without "-" has nothing before its last "-": the title is
      the bare prefix. */
  lemma TitleWithoutDash(branch: string)
    requires '-' !in branch
    ensures PrTitle(branch) == TitlePrefix
  {
    assert Substring(branch, 0, -1) == [];
  }

  /** For a branch `t-d` whose last part `d` has no "-", the title is made
      from `t` alone. */
  lemma TitleOfShape(t: string, d: string)
    requires '-' !in d
    ensures PrTitle(t + "-" + d) == TitlePrefix + ReplaceAll(ReplaceFirst(t, '/', ": "), '-', " ")
  {
    var b := t + "-" + d;
    assert b[|t|] == '-' && b[|t| + 1..] == d;
    LastIndexOfCharAt(b, '-', |t|);
    assert Substring(b, 0, |t|) == t;
  }

  /** A branch `a/b-c-d-n` of dash-free words: the job number `n` goes, the
      slash becomes ": " and the dashes spaces. */
  lemma TitleOfWords(a: string, b: string, c: string, d: string, n: string)
    requires '/' !in a && '-' !in a && '-' !in b && '-' !in c && '-' !in d && '-' !in n
    ensures PrTitle(a + "/" + b + "-" + c + "-" + d + "-" + n) == TitlePrefix + (a + ": " + (b + " " + c + " " + d))
  {
    var t := a + "/" + b + "-" + c + "-" + d;
    TitleOfShape(t, n);
    Regroup(a, "/", b, "-", c, "-", d);
    ReplaceFirstSplit(a, '/', ": ", b + "-" + c + "-" + d);
    ReplaceAllAppend(a, ": " + (b + "-" + c + "-" + d), '-', " ");
    ReplaceAllAppend(": ", b + "-" + c + "-" + d, '-', " ");
    DashesToSpaces(b, c, d);
    assert ReplaceAll(": ", '-', " ") == ": ";
    ConcatAssoc(a, ": ", b + "-" + c + "-" + d);
    ConcatAssoc(a, ": ", b + " " + c + " " + d);
  }

  lemma Regroup<T>(a: seq<T>, s: seq<T>, b: seq<T>, x: seq<T>, c: seq<T>, y: seq<T>, d: seq<T>)
    ensures a + s + b + x + c + y + d == a + s + (b + x + c + y + d)
  {
  }

  /** The example of the design: "feat/add-dark-mode-42". */
  lemma TitleExample()
    ensures PrTitle("feat/add-dark-mode-42") == "[Freepilot] feat: add dark mode"
  {
    ExampleParts();
    TitleOfWords("feat", "add", "dark", "mode", "42");
  }

  lemma ExampleParts()
    ensures "feat/add-dark-mode-42" == "feat" + "/" + "add" + "-" + "dark" + "-" + "mode" + "-" + "42"
    ensures TitlePrefix + ("feat" + ": " + ("add" + " " + "dark" + " " + "mode")) == "[Freepilot] feat: add dark mode"
  {
  }

  /** Three dash-free words joined by dashes come out joined by spaces. */
  lemma DashesToSpaces(a: string, b: string, c: string)
    requires '-' !in a && '-' !in b && '-' !in c
    ensures ReplaceAll(a + "-" + b + "-" + c, '-', " ") == a + " " + b + " " + c
  {
    ReplaceAllAppend(a + "-" + b + "-", c, '-', " ");
    ReplaceAllAppend(a + "-" + b, "-", '-', " ");
    ReplaceAllAppend(a + "-", b, '-', " ");
    ReplaceAllAppend(a, "-", '-', " ");
    assert ReplaceAll("-", '-', " ") == " ";
  }

  /** `${GITHUB_BOT_USERNAME}:${branch}`: the fork's branch, qualified by the
      bot account that owns the fork. */
  function HeadOf(bot: string, branch: string): (head: string)
    ensures StartsWith(head, bot + ":")
    ensures head[|bot| + 1..] == branch
  {
    StartsWithPrefix(bot + ":", branch);
    bot + ":" + branch
  }

  /** Different branches give different heads. */
  lemma HeadInjective(bot: string, b1: string, b2: string)
    requires HeadOf(bot, b1) == HeadOf(bot, b2)
    ensures b1 == b2
  {
  }

  const JobsLink := "\n\nView job on Freepilot: https://freepilot.albylabs.com/jobs/"

  /** The description: which issue it fixes, the branch's commit log, and a
      link to the job's page. */
  function BodyOf(issueUrl: string, branchLogs: string, jobId: nat): (body: string)
    ensures StartsWith(body, "Fixes " + issueUrl + "\n\n")
    ensures EndsWith(body, JobsLink + NatToString(jobId))
  {
    var text := "Fixes " + issueUrl + "\n\n" + branchLogs;
    var body := text + JobsLink + NatToString(jobId);
    ConcatAssoc(text, JobsLink, NatToString(jobId));
    StartsWithPrefix("Fixes " + issueUrl + "\n\n", branchLogs);
    assert body[..|text|] == text;
    assert body[|body| - |JobsLink + NatToString(jobId)|..] == JobsLink + NatToString(jobId);
    body
  }

  /** The job id can be read back from the link: the text after the body's
      last "/" is the id's decimal digits, which `parseInt(…, 10)` turns back
      into the id, as the job page's route does. */
  lemma BodyLinksJob(issueUrl: string, branchLogs: string, jobId: nat)
    ensures var body := BodyOf(issueUrl, branchLogs, jobId);
            ParseInt10(body[LastIndexOfChar(body, '/') + 1..]) == Some(jobId)
  {
    var body := BodyOf(issueUrl, branchLogs, jobId);
    var digits := NatToString(jobId);
    var j := |body| - |digits| - 1;
    assert body[|body| - |JobsLink + digits|..] == JobsLink + digits;
    assert body[j] == (JobsLink + digits)[|JobsLink| - 1] == '/';
    assert body[j + 1..] == digits;
    assert '/' !in digits by {
      forall i | 0 <= i < |digits| ensures digits[i] != '/' { assert IsDigit(digits[i]); }
    }
    LastIndexOfCharAt(body, '/', j);
    ParseInt10NatToString(jobId, []);
    assert digits + [] == digits;
  }

  datatype PullRequest = PullRequest(
    owner: Option<string>, repo: string, head: string, base: string, body: string, title: string,
    maintainerCanModify: bool)

  /** The job being published; `owner` is undefined when the repository URL
      had a single segment. */
  datatype PublishJob = PublishJob(jobId: nat, issueUrl: string, owner: Option<string>, repo: string, bot: string)

  /** The parameters handed to `pulls.create`. */
  function PullRequestOf(job: PublishJob, branch: string, base: string, branchLogs: string): (pr: PullRequest)
    ensures pr.owner == job.owner && pr.repo == job.repo && pr.base == base
    ensures StartsWith(pr.head, job.bot + ":") && pr.head[|job.bot| + 1..] == branch
    ensures '-' !in pr.title && StartsWith(pr.title, TitlePrefix)
    ensures StartsWith(pr.body, "Fixes " + job.issueUrl + "\n\n")
    ensures pr.maintainerCanModify
  {
    PullRequest(job.owner, job.repo, HeadOf(job.bot, branch), base,
                BodyOf(job.issueUrl, branchLogs, job.jobId), PrTitle(branch), true)
  }

  // ---------------------------------------------------------------------------
  // The publication sequence

  /** The answers of the foreign calls, in the order they are made. */
  datatype PublishReplies = PublishReplies(
    branchOut: seq<string>,          // stdout chunks of `git rev-parse --abbrev-ref HEAD`
    branchEnd: ProcessEnd,           // and how it ended
    pushExit: ExitCode,              // the 'close' code of `git push -u origin HEAD`
    upstream: Result<string, string>, // repos.get: the default branch
    logOut: seq<string>,             // stdout chunks of `git --no-pager log <base>..HEAD`
    logEnd: ProcessEnd,              // and how it ended
    created: Result<string, string>) // pulls.create: the pull request's html_url

  /** The settled value, the request sent (if the sequence got that far) and
      the entries written. */
  datatype Publication = Publication(result: Result<string, string>, request: Option<PullRequest>, log: seq<Entry>)

  const CaughtPrefix := "Error caught while publishing: "
  const BranchRejected := "push branch process exited with non-success code: "
  const PushRejected := "push branch process exited with non-success code: "
  const LogsRejected := "git logs process exited with non-success code: "

  /** `"".concat(...chunks)`: the `+=` of the 'data' listener. */
  function Concat(chunks: seq<string>): (text: string)
    ensures chunks == [] ==> text == []
    ensures |chunks| == 1 ==> text == chunks[0]
  {
    if chunks == [] then [] else Concat(chunks[..|chunks| - 1]) + chunks[|chunks| - 1]
  }

  /** A failed step: its own entries, then the catch's, and the rejection. */
  function Failed(entries: seq<Entry>, error: string): Publication {
    Publication(Err(error), None, entries + [Entry(Error, CaughtPrefix + error)])
  }

  function Prefixed(entries: seq<Entry>, p: Publication): Publication {
    p.(log := entries + p.log)
  }

  /** The line a process's own listener writes before its promise rejects. */
  function ListenerEntry(end: ProcessEnd, nonZero: string): Entry {
    match end
    case SpawnError(e) => Entry(Error, "Process exited with error: " + e)
    case Closed(code) => Entry(Error, nonZero + CodeText(code))
  }

  /** `publish(jobLogger, jobId, issueUrl, owner, repo, issueNumber)`. */
  function PublishOf(job: PublishJob, rp: PublishReplies): Publication {
    Prefixed([Entry(Info, "getting branch name")], BranchStage(job, rp))
  }

  function BranchStage(job: PublishJob, rp: PublishReplies): Publication {
    var settled := SettleFalsy(rp.branchEnd, BranchRejected);
    if settled.Fail? then
      Failed([ListenerEntry(rp.branchEnd, "git branch name process exited with non-success code ")], settled.error)
    else
      Prefixed([Entry(Info, "got branch name"), Entry(Info, "pushing branch")],
               PushStage(job, Trim(Concat(rp.branchOut)), rp))
  }

  /** The push process has no 'error' listener; only its close code is read. */
  function PushStage(job: PublishJob, branch: string, rp: PublishReplies): Publication {
    var settled := SettleFalsy(Closed(rp.pushExit), PushRejected);
    if settled.Fail? then
      Failed([Entry(Error, "push branch exited with non-success code")], settled.error)
    else
      Prefixed([Entry(Info, "getting upstream repository data")], UpstreamStage(job, branch, rp))
  }

  function UpstreamStage(job: PublishJob, branch: string, rp: PublishReplies): Publication {
    if rp.upstream.Err? then Failed([], rp.upstream.error)
    else Prefixed([Entry(Info, "getting branch logs")], LogStage(job, branch, rp.upstream.value, rp))
  }

  function LogStage(job: PublishJob, branch: string, base: string, rp: PublishReplies): Publication {
    var settled := SettleFalsy(rp.logEnd, LogsRejected);
    if settled.Fail? then
      Failed([ListenerEntry(rp.logEnd, "git logs process exited with non-success code ")], settled.error)
    else CreateStage(PullRequestOf(job, branch, base, Concat(rp.logOut)), rp.created)
  }

  /** What a created pull request leaves in the log. */
  const CreatedLine := "successfully created pull request"
  const CreatedLog := [Entry(Info, "creating pull request"), Entry(Info, CreatedLine)]

  /** Letters and digits the success line does not hold, in either case. */
  lemma CreatedLineLacks()
    ensures 'g' !in CreatedLine && 'G' !in CreatedLine && 'x' !in CreatedLine && 'X' !in CreatedLine
    ensures 'h' !in CreatedLine && 'H' !in CreatedLine && '2' !in CreatedLine && '3' !in CreatedLine
    ensures '\n' !in CreatedLine
  {
    CreatedLineAlphabet();
  }

  /** The characters the success line is written with: a space and some
      lower-case letters. */
  predicate InCreatedAlphabet(ch: char) {
    ch == ' ' || ch == 'a' || 'c' <= ch <= 'f' || ch == 'l' || 'p' <= ch <= 'u' || ch == 'y'
  }

  lemma CreatedLineAlphabet()
    ensures forall i :: 0 <= i < |CreatedLine| ==> InCreatedAlphabet(CreatedLine[i])
  {
  }

  /** The inner try: a failed creation is logged, then rethrown to the outer
      catch, which logs it again and rethrows. */
  function CreateStage(pr: PullRequest, created: Result<string, string>): Publication {
    match created
    case Ok(url) =>
      Publication(Ok(url), Some(pr), CreatedLog)
    case Err(e) =>
      Publication(Err(e), Some(pr), [Entry(Info, "creating pull request"), Entry(Error, "failed to create pull request"),
                                     Entry(Error, CaughtPrefix + e)])
  }

  /** The 'data' listener of a process whose output is collected. */
  method Collect(chunks: seq<string>) returns (text: string)
    ensures text == Concat(chunks)
  {
    text := "";
    var i := 0;
    while i < |chunks|
      invariant 0 <= i <= |chunks|
      invariant text == Concat(chunks[..i])
    {
      assert chunks[..i + 1][..i] == chunks[..i];
      text := text + chunks[i];
      i := i + 1;
    }
    assert chunks[..|chunks|] == chunks;
  }

  method Publish(logger: JobLogger, job: PublishJob, rp: PublishReplies)
    returns (r: Result<string, string>, sent: Option<PullRequest>)
    modifies logger
    ensures r == PublishOf(job, rp).result && sent == PublishOf(job, rp).request
    ensures logger.entries == old(logger.entries) + PublishOf(job, rp).log
  {
    ghost var before := logger.entries;
    logger.Log(Info, "getting branch name");
    r, sent := ReadBranch(logger, job, rp);
    ConcatAssoc(before, [Entry(Info, "getting branch name")], BranchStage(job, rp).log);
  }

  method ReadBranch(logger: JobLogger, job: PublishJob, rp: PublishReplies)
    returns (r: Result<string, string>, sent: Option<PullRequest>)
    modifies logger
    ensures r == BranchStage(job, rp).result && sent == BranchStage(job, rp).request
    ensures logger.entries == old(logger.entries) + BranchStage(job, rp).log
  {
    ghost var before := logger.entries;
    var output := Collect(rp.branchOut);
    var settled := SettleFalsy(rp.branchEnd, BranchRejected);
    if settled.Fail? {
      var entry := ListenerEntry(rp.branchEnd, "git branch name process exited with non-success code ");
      logger.Log(entry.level, entry.message);
      logger.Log(Error, CaughtPrefix + settled.error);
      return Err(settled.error), None;
    }
    var branch := Trim(output);
    logger.Log(Info, "got branch name");
    logger.Log(Info, "pushing branch");
    ghost var entries := [Entry(Info, "got branch name"), Entry(Info, "pushing branch")];
    AppendTwo(before, entries[0], entries[1]);
    r, sent := Push(logger, job, branch, rp);
    ConcatAssoc(before, entries, PushStage(job, branch, rp).log);
  }

  method Push(logger: JobLogger, job: PublishJob, branch: string, rp: PublishReplies)
    returns (r: Result<string, string>, sent: Option<PullRequest>)
    modifies logger
    ensures r == PushStage(job, branch, rp).result && sent == PushStage(job, branch, rp).request
    ensures logger.entries == old(logger.entries) + PushStage(job, branch, rp).log
  {
    ghost var before := logger.entries;
    var pushed := SettleFalsy(Closed(rp.pushExit), PushRejected);
    if pushed.Fail? {
      logger.Log(Error, "push branch exited with non-success code");
      logger.Log(Error, CaughtPrefix + pushed.error);
      return Err(pushed.error), None;
    }
    logger.Log(Info, "getting upstream repository data");
    r, sent := FetchUpstream(logger, job, branch, rp);
    ConcatAssoc(before, [Entry(Info, "getting upstream repository data")], UpstreamStage(job, branch, rp).log);
  }

  method FetchUpstream(logger: JobLogger, job: PublishJob, branch: string, rp: PublishReplies)
    returns (r: Result<string, string>, sent: Option<PullRequest>)
    modifies logger
    ensures r == UpstreamStage(job, branch, rp).result && sent == UpstreamStage(job, branch, rp).request
    ensures logger.entries == old(logger.entries) + UpstreamStage(job, branch, rp).log
  {
    ghost var before := logger.entries;
    if rp.upstream.Err? {
      logger.Log(Error, CaughtPrefix + rp.upstream.error);
      return Err(rp.upstream.error), None;
    }
    var base := rp.upstream.value;
    logger.Log(Info, "getting branch logs");
    r, sent := ReadLogs(logger, job, branch, base, rp);
    ConcatAssoc(before, [Entry(Info, "getting branch logs")], LogStage(job, branch, base, rp).log);
  }

  method ReadLogs(logger: JobLogger, job: PublishJob, branch: string, base: string, rp: PublishReplies)
    returns (r: Result<string, string>, sent: Option<PullRequest>)
    modifies logger
    ensures r == LogStage(job, branch, base, rp).result && sent == LogStage(job, branch, base, rp).request
    ensures logger.entries == old(logger.entries) + LogStage(job, branch, base, rp).log
  {
    var logs := Collect(rp.logOut);
    var settled := SettleFalsy(rp.logEnd, LogsRejected);
    if settled.Fail? {
      var entry := ListenerEntry(rp.logEnd, "git logs process exited with non-success code ");
      logger.Log(entry.level, entry.message);
      logger.Log(Error, CaughtPrefix + settled.error);
      return Err(settled.error), None;
    }
    var pr := PullRequestOf(job, branch, base, logs);
    r, sent := Open(logger, pr, rp.created);
  }

  method Open(logger: JobLogger, pr: PullRequest, created: Result<string, string>)
    returns (r: Result<string, string>, sent: Option<PullRequest>)
    modifies logger
    ensures r == CreateStage(pr, created).result && sent == CreateStage(pr, created).request
    ensures logger.entries == old(logger.entries) + CreateStage(pr, created).log
  {
    logger.Log(Info, "creating pull request");
    sent := Some(pr);
    if created.Err? {
      logger.Log(Error, "failed to create pull request");
      logger.Log(Error, CaughtPrefix + created.error);
      return Err(created.error), sent;
    }
    logger.Log(Info, CreatedLine);
    r := Ok(created.value);
  }

  // ---------------------------------------------------------------------------
  // Properties of the sequence

  /** Each git step passes on a close code of 0 or null, so publishing
      succeeds exactly when every step does, and then it settles with the
      pull request's URL. */
  lemma PublishSucceedsIff(job: PublishJob, rp: PublishReplies)
    ensures PublishOf(job, rp).result.Ok? <==>
              && (rp.branchEnd == Closed(Code(0)) || rp.branchEnd == Closed(Killed))
              && (rp.pushExit == Code(0) || rp.pushExit == Killed)
              && rp.upstream.Ok?
              && (rp.logEnd == Closed(Code(0)) || rp.logEnd == Closed(Killed))
              && rp.created.Ok?
    ensures PublishOf(job, rp).result.Ok? ==> PublishOf(job, rp).result.value == rp.created.value
  {
  }

  /** The pull request is requested exactly when the four steps before it
      passed, and it carries the trimmed branch name, the default branch and
      the collected commit log. */
  lemma RequestSent(job: PublishJob, rp: PublishReplies)
    ensures PublishOf(job, rp).request.Some? <==>
              && SettleFalsy(rp.branchEnd, BranchRejected).Pass?
              && SettleFalsy(Closed(rp.pushExit), PushRejected).Pass?
              && rp.upstream.Ok?
              && SettleFalsy(rp.logEnd, LogsRejected).Pass?
    ensures PublishOf(job, rp).request.Some? ==>
              PublishOf(job, rp).request.value
              == PullRequestOf(job, Trim(Concat(rp.branchOut)), rp.upstream.value, Concat(rp.logOut))
  {
    BranchStageRequest(job, rp);
  }

  lemma BranchStageRequest(job: PublishJob, rp: PublishReplies)
    ensures BranchStage(job, rp).request.Some? <==>
              && SettleFalsy(rp.branchEnd, BranchRejected).Pass?
              && SettleFalsy(Closed(rp.pushExit), PushRejected).Pass?
              && rp.upstream.Ok?
              && SettleFalsy(rp.logEnd, LogsRejected).Pass?
    ensures BranchStage(job, rp).request.Some? ==>
              BranchStage(job, rp).request.value
              == PullRequestOf(job, Trim(Concat(rp.branchOut)), rp.upstream.value, Concat(rp.logOut))
  {
    PushStageRequest(job, Trim(Concat(rp.branchOut)), rp);
  }

  lemma PushStageRequest(job: PublishJob, branch: string, rp: PublishReplies)
    ensures PushStage(job, branch, rp).request.Some? <==>
              && SettleFalsy(Closed(rp.pushExit), PushRejected).Pass?
              && rp.upstream.Ok?
              && SettleFalsy(rp.logEnd, LogsRejected).Pass?
    ensures PushStage(job, branch, rp).request.Some? ==>
              PushStage(job, branch, rp).request.value
              == PullRequestOf(job, branch, rp.upstream.value, Concat(rp.logOut))
  {
    UpstreamStageRequest(job, branch, rp);
  }

  lemma UpstreamStageRequest(job: PublishJob, branch: string, rp: PublishReplies)
    ensures UpstreamStage(job, branch, rp).request.Some? <==>
              rp.upstream.Ok? && SettleFalsy(rp.logEnd, LogsRejected).Pass?
    ensures UpstreamStage(job, branch, rp).request.Some? ==>
              UpstreamStage(job, branch, rp).request.value
              == PullRequestOf(job, branch, rp.upstream.value, Concat(rp.logOut))
  {
  }

  /** A rejected stage ends its log with the outer catch's line. */
  predicate CaughtLast(p: Publication) {
    p.result.Err? ==> |p.log| >= 1 && p.log[|p.log| - 1] == Entry(Error, CaughtPrefix + p.result.error)
  }

  lemma PrefixedCaughtLast(entries: seq<Entry>, p: Publication)
    requires CaughtLast(p)
    ensures CaughtLast(Prefixed(entries, p))
  {
  }

  lemma FailedCaughtLast(entries: seq<Entry>, error: string)
    ensures CaughtLast(Failed(entries, error))
  {
  }

  lemma LogStageCaughtLast(job: PublishJob, branch: string, base: string, rp: PublishReplies)
    ensures CaughtLast(LogStage(job, branch, base, rp))
  {
    if SettleFalsy(rp.logEnd, LogsRejected).Fail? {
      FailedCaughtLast([ListenerEntry(rp.logEnd, "git logs process exited with non-success code ")],
                       SettleFalsy(rp.logEnd, LogsRejected).error);
    }
  }

  lemma UpstreamStageCaughtLast(job: PublishJob, branch: string, rp: PublishReplies)
    ensures CaughtLast(UpstreamStage(job, branch, rp))
  {
    if rp.upstream.Ok? {
      LogStageCaughtLast(job, branch, rp.upstream.value, rp);
      PrefixedCaughtLast([Entry(Info, "getting branch logs")], LogStage(job, branch, rp.upstream.value, rp));
    }
  }

  lemma PushStageCaughtLast(job: PublishJob, branch: string, rp: PublishReplies)
    ensures CaughtLast(PushStage(job, branch, rp))
  {
    if SettleFalsy(Closed(rp.pushExit), PushRejected).Pass? {
      UpstreamStageCaughtLast(job, branch, rp);
      PrefixedCaughtLast([Entry(Info, "getting upstream repository data")], UpstreamStage(job, branch, rp));
    }
  }

  lemma BranchStageCaughtLast(job: PublishJob, rp: PublishReplies)
    ensures CaughtLast(BranchStage(job, rp))
  {
    if SettleFalsy(rp.branchEnd, BranchRejected).Pass? {
      var branch := Trim(Concat(rp.branchOut));
      PushStageCaughtLast(job, branch, rp);
      PrefixedCaughtLast([Entry(Info, "got branch name"), Entry(Info, "pushing branch")], PushStage(job, branch, rp));
    }
  }

  /** Every rejection is logged by the outer catch as the last entry, and
      rethrown. */
  lemma ErrorsLoggedThenRethrown(job: PublishJob, rp: PublishReplies)
    ensures PublishOf(job, rp).result.Err? ==>
              var log := PublishOf(job, rp).log;
              |log| >= 2 && log[|log| - 1] == Entry(Error, CaughtPrefix + PublishOf(job, rp).result.error)
  {
    BranchStageCaughtLast(job, rp);
  }

  /** The entries of a publication that succeeds, in the order written. */
  const SuccessLog := [Entry(Info, "getting branch name")] + BranchSuccessLog
  const BranchSuccessLog := [Entry(Info, "got branch name"), Entry(Info, "pushing branch")] + PushSuccessLog
  const PushSuccessLog := [Entry(Info, "getting upstream repository data")] + UpstreamSuccessLog
  const UpstreamSuccessLog := [Entry(Info, "getting branch logs")] + CreatedLog

  /** A publication that settles with a URL has written exactly the progress
      lines of its five steps, ending with the creation's success line. */
  lemma SucceededLog(job: PublishJob, rp: PublishReplies)
    requires PublishOf(job, rp).result.Ok?
    ensures PublishOf(job, rp).log == SuccessLog
    ensures SuccessLog[|SuccessLog| - 1] == Entry(Info, CreatedLine)
  {
    BranchSucceededLog(job, rp);
    SuccessLogEndsCreated();
  }

  lemma SuccessLogEndsCreated()
    ensures SuccessLog[|SuccessLog| - 1] == Entry(Info, CreatedLine)
  {
    LastOfPrefixed([Entry(Info, "getting branch logs")], CreatedLog);
    LastOfPrefixed([Entry(Info, "getting upstream repository data")], UpstreamSuccessLog);
    LastOfPrefixed([Entry(Info, "got branch name"), Entry(Info, "pushing branch")], PushSuccessLog);
    LastOfPrefixed([Entry(Info, "getting branch name")], BranchSuccessLog);
  }

  lemma LastOfPrefixed(a: seq<Entry>, b: seq<Entry>)
    requires b != []
    ensures (a + b)[|a + b| - 1] == b[|b| - 1]
  {
  }

  lemma BranchSucceededLog(job: PublishJob, rp: PublishReplies)
    requires BranchStage(job, rp).result.Ok?
    ensures BranchStage(job, rp).log == BranchSuccessLog
  {
    assert SettleFalsy(rp.branchEnd, BranchRejected).Pass?;
    PushSucceededLog(job, Trim(Concat(rp.branchOut)), rp);
  }

  lemma PushSucceededLog(job: PublishJob, branch: string, rp: PublishReplies)
    requires PushStage(job, branch, rp).result.Ok?
    ensures PushStage(job, branch, rp).log == PushSuccessLog
  {
    assert SettleFalsy(Closed(rp.pushExit), PushRejected).Pass?;
    UpstreamSucceededLog(job, branch, rp);
  }

  lemma UpstreamSucceededLog(job: PublishJob, branch: string, rp: PublishReplies)
    requires UpstreamStage(job, branch, rp).result.Ok?
    ensures UpstreamStage(job, branch, rp).log == UpstreamSuccessLog
  {
  }

  /** A failure of the branch-name process rejects with the push step's
      message (`BranchRejected` is the push step's text, as written). */
  lemma BranchFailureMessage(job: PublishJob, rp: PublishReplies, n: int)
    requires rp.branchEnd == Closed(Code(n)) && n != 0
    ensures PublishOf(job, rp).result == Err(ErrorText(BranchRejected + IntToString(n)))
    ensures BranchRejected == PushRejected
    ensures PublishOf(job, rp).log ==
            [Entry(Info, "getting branch name"),
             Entry(Error, "git branch name process exited with non-success code " + IntToString(n)),
             Entry(Error, CaughtPrefix + ErrorText(BranchRejected + IntToString(n)))]
  {
  }
}
