# Freepilot backend, modelled in Dafny

Freepilot is a service that takes a GitHub issue URL and a Nostr Wallet
Connect URL, charges the user's wallet a 1000-sat test payment, forks and
clones the repository, lets a coding agent (goose) work on the issue, pushes
the branch and opens a pull request. The backend keeps one row per job
in a database table, writes each job's progress to a log file, summarises
those logs for the job page, reports service-wide statistics, and has a
clean-up routine that deletes the clones of jobs older than an hour.

This project models that backend core and proves properties of the model.

| file | module | models |
|---|---|---|
| js_text.dfy | JsText | the JavaScript string primitives the core relies on (`indexOf`, `lastIndexOf`, `substring`, `split`, `replace`, `replaceAll`, `trim`, `parseInt`, `String(n)`), with their edge cases |
| json_text.dfy | JsonText | `JSON.stringify` of a string, as the agent's prompt is built |
| analyze_logs.dfy, analyze_logs_properties.dfy | LogAnalysis, LogAnalysisProperties | `analyzeLogs`: the cost sum, the step patterns, priority sorting and de-duplication, and the current step |
| analyze_logs_example.dfy | LogAnalysisExample | the analyzer applied to a two-line log that has got as far as reading the issue URL |
| extract_repository_name.dfy | RepositoryName | `extractRepositoryName` |
| job_log.dfy | JobLog | the per-job winston logger, as an append-only list of lines |
| processes.dfy | Processes | how a child process's exit code and signal are read as success |
| prepare_repository.dfy | PrepareRepository | `prepareRepository`: parsing the issue URL, fetching the issue, forking, syncing the fork, cloning |
| launch_agent.dfy | LaunchAgent | `launchAgent`: the prompt, the output filtering, and how the process ends |
| publish.dfy | Publish | `publish`: branch name, push, collecting the commit log for the body, and pull-request creation |
| job_table.dfy | JobTable | the `job` table: create, status and clean-up updates, `findMany` |
| job_routes.dfy, job_routes_properties.dfy | JobRoutes, JobRoutesProperties | `POST /jobs` with its pipeline, and `GET /jobs/:id` |
| log_lines.dfy | LogLines | what `analyzeLogs` makes of the lines the pipeline writes to the job log |
| stats.dfy | Stats | `calculateStats` and the cached `GET /stats` |
| cleanup.dfy | Cleanup | `cleanupOldRepositories` |

External services are parameters. These are the database (the outcome of
the row creation, of the GET lookup, of the stats and clean-up queries and of
the clean-up updates; the pipeline's status updates always succeed, see
"Left out"), the wallets (invoice and payment), GitHub (issue, fork, pull
requests), git and goose (their output chunks and how they end), the file
system (which folders and log files exist) and the clock. Each is given
as the answers it returns, so every operation is a function or method of
those answers. Each stage of the job pipeline is an imperative method over the
`JobStore` and `JobLogger` objects, each proved against a specification
function. The properties are proved about those specification functions.

## Model

| member | source | states |
|---|---|---|
| LogAnalysis.SearchSingle | backend/src/jobs/analyzeLogs.ts:24 | a one-fragment pattern such as `/Preparing repository/i` tests true on a line exactly when the fragment occurs in it, compared case-insensitively |
| LogAnalysis.SearchInfix | backend/src/jobs/analyzeLogs.ts:115 | a line that a pattern matches still matches with any text added before and after it |
| LogAnalysis.SearchExtend | backend/src/jobs/analyzeLogs.ts:115 | a line that a pattern matches still matches with text appended |
| LogAnalysis.FollowsExtend | backend/src/jobs/analyzeLogs.ts:54 | fragments found in order, separated only by what `.*` spans, are still found with text appended |
| LogAnalysis.FirstMatchFrom | backend/src/jobs/analyzeLogs.ts:114-119 | the row found is the first one from row k on whose pattern tests true, every row before it is skipped, and nothing is found exactly when no row from k on matches |
| LogAnalysis.FirstMatch | backend/src/jobs/analyzeLogs.ts:114-119 | a line yields the first matching row in table order (the `break` after the first push), and nothing exactly when no row matches |
| LogAnalysis.ObservationsSnoc | backend/src/jobs/analyzeLogs.ts:113-120 | one more line adds that line's observation, if any, at the end of `foundSteps` |
| LogAnalysis.ObservationsAppendStep | backend/src/jobs/analyzeLogs.ts:113-120 | the scan of two blocks stays the concatenation of their scans when one line is added to the second block |
| LogAnalysis.ObservationsAppend | backend/src/jobs/analyzeLogs.ts:113-120 | scanning two blocks of lines gives the concatenation of their scans |
| LogAnalysis.RulePriorities | backend/src/jobs/analyzeLogs.ts:22-108 | row k of the step table carries priority k + 1 |
| LogAnalysis.RuleLabelsDistinct | backend/src/jobs/analyzeLogs.ts:22-108 | the 17 step labels are pairwise distinct |
| LogAnalysis.RulePatternsNonEmpty | backend/src/jobs/analyzeLogs.ts:22-108 | every pattern starts with a non-empty literal |
| LogAnalysis.EmptyLineMatchesNothing | backend/src/jobs/analyzeLogs.ts:113-120 | an empty line matches no row |
| LogAnalysis.MissingCharNoMatch | backend/src/jobs/analyzeLogs.ts:115 | a line lacking, in either case, some character of a pattern's first fragment does not match the pattern |
| LogAnalysis.MissingInEitherCase | backend/src/jobs/analyzeLogs.ts:115 | a character absent from a line in both its cases has no case-insensitive equal there |
| LogAnalysis.FirstFragmentLetters | backend/src/jobs/analyzeLogs.ts:22-102 | each of the first sixteen rows' first fragments holds a "g", "x", "h", "2" or "3" at a known place |
| LogAnalysis.OnlyFinalRow | backend/src/jobs/analyzeLogs.ts:103-120 | a line without those characters that matches the last row is observed as "Pull request created" with priority 17 |
| LogAnalysis.LabelsAreNotStatusWords | backend/src/jobs/analyzeLogs.ts:22-108 | no label of the table is "Initializing" or "Finalizing" |
| LogAnalysis.RankOf | backend/src/jobs/analyzeLogs.ts:22-108 | the rank of a name is 0 or the priority of the row carrying that label |
| LogAnalysis.RankFrom | backend/src/jobs/analyzeLogs.ts:22-108 | the rank from row k on is 0 exactly when no row from k on carries the label, else the priority of the first that does |
| LogAnalysis.RankOfRule | backend/src/jobs/analyzeLogs.ts:22-108 | the label of row k ranks k + 1 |
| LogAnalysis.FinalStepRank | backend/src/jobs/analyzeLogs.ts:103-107 | "Pull request created" ranks 17, the number of rows, and is the only label that does |
| LogAnalysis.FindIndexAbove | backend/src/jobs/analyzeLogs.ts:141 | `findIndex(p => p.priority > bound)`: -1 exactly when no row has a greater priority, else the first row that does |
| LogAnalysis.FindIndexAboveFrom | backend/src/jobs/analyzeLogs.ts:141 | the same search from row k on |
| LogAnalysis.Insert | backend/src/jobs/analyzeLogs.ts:124 | inserting into a list sorted by priority keeps it sorted and adds exactly that element to its multiset |
| LogAnalysis.ConsSorted | backend/src/jobs/analyzeLogs.ts:124 | an element of no greater priority than a sorted list's head may go in front of it |
| LogAnalysis.ConsMultiset | backend/src/jobs/analyzeLogs.ts:124 | putting the head back in front of an insertion preserves the multiset |
| LogAnalysis.SortByPriority | backend/src/jobs/analyzeLogs.ts:124 | the sort by priority returns a sorted permutation of its input |
| LogAnalysis.DedupeInto | backend/src/jobs/analyzeLogs.ts:125-130 | the `reduce` keeps one observation per label, stays sorted, keeps the accumulator, takes nothing from outside its input and loses no label |
| LogAnalysis.Dedupe | backend/src/jobs/analyzeLogs.ts:125-130 | deduplication of a sorted list: distinct labels, sorted, drawn from the input, every input label present |
| LogAnalysis.UniqueSteps | backend/src/jobs/analyzeLogs.ts:123-130 | the sort then the dedupe: distinct labels in priority order, drawn from `foundSteps`, every found label present |
| LogAnalysis.UniqueStepsDeduped | backend/src/jobs/analyzeLogs.ts:123-130 | `uniqueSteps` has all the properties the summary lemmas rely on |
| LogAnalysis.TaggedSumSkip | backend/src/jobs/analyzeLogs.ts:14 | text with no digit in it adds nothing to a digit-run sum |
| LogAnalysis.TaggedSumNumber | backend/src/jobs/analyzeLogs.ts:14 | a written number followed by a non-digit adds its value exactly when the tag follows it |
| LogAnalysis.SatsCostOfAmount | backend/src/jobs/analyzeLogs.ts:14-18 | every `<n><white space>sats` adds n to `totalCost`, whatever follows |
| LogAnalysis.SatsLead | backend/src/jobs/analyzeLogs.ts:14 | white space then "sats" completes the pattern and holds no digit |
| LogAnalysis.TrimStartSpaces | backend/src/jobs/analyzeLogs.ts:17 | the white space `\s*` strips is exactly the leading `\s` run |
| LogAnalysis.SatsCostRepeated | backend/src/jobs/analyzeLogs.ts:16-18 | the same amount on two lines is counted twice: there is no deduplication of costs |
| LogAnalysis.ScanLines | backend/src/jobs/analyzeLogs.ts:113-120 | the nested loop with its `break` pushes exactly the observations of the specification |
| LogAnalysis.AnalyzeLogs | backend/src/jobs/analyzeLogs.ts:7-169 | the imperative analyzer returns the summary that the functional specification describes |
| LogAnalysisProperties.ObservationsFromTable | backend/src/jobs/analyzeLogs.ts:113-120 | every pushed observation is some row's label with that row's priority, and there is at most one per line |
| LogAnalysisProperties.ObservationsRanked | backend/src/jobs/analyzeLogs.ts:113-120 | every pushed priority is the rank of its label |
| LogAnalysisProperties.ObservationsEmpty | backend/src/jobs/analyzeLogs.ts:113-120 | nothing is pushed exactly when no line matches any row |
| LogAnalysisProperties.DedupedIncreasing | backend/src/jobs/analyzeLogs.ts:123-130 | after the sort and dedupe the priorities strictly increase |
| LogAnalysisProperties.RankOfObservation | backend/src/jobs/analyzeLogs.ts:22-108 | a table observation's label ranks at its priority |
| LogAnalysisProperties.LabelsIncreasing | backend/src/jobs/analyzeLogs.ts:133 | the labels copied into `completedSteps` are in strictly increasing rank |
| LogAnalysisProperties.AppendFinalIncreasing | backend/src/jobs/analyzeLogs.ts:155-157 | appending "Pull request created" when absent keeps the ranks strictly increasing |
| LogAnalysisProperties.CompletedOfIncreasing | backend/src/jobs/analyzeLogs.ts:132-157 | the completed labels, with or without the appended final label, are in strictly increasing rank |
| LogAnalysisProperties.CompletedStepsOrdered | backend/src/jobs/analyzeLogs.ts:132-157 | `completedSteps` holds table labels only, in strictly increasing priority and without duplicates |
| LogAnalysisProperties.MaxPriority | backend/src/jobs/analyzeLogs.ts:136-137 | the largest observed priority is attained and bounds every observation |
| LogAnalysisProperties.LastIsHighest | backend/src/jobs/analyzeLogs.ts:136-137 | the last deduplicated step carries the highest priority observed |
| LogAnalysisProperties.FindIndexAboveRank | backend/src/jobs/analyzeLogs.ts:141 | for a priority p below 17 the first row above it is row p |
| LogAnalysisProperties.InferredStepOf | backend/src/jobs/analyzeLogs.ts:136-150 | the inferred step is "Initializing" with nothing found, the next row's label below priority 17, "Completed" at 17 |
| LogAnalysisProperties.NextStepOf | backend/src/jobs/analyzeLogs.ts:139-146 | without a marker the current step follows from the highest observed priority |
| LogAnalysisProperties.NextStepInference | backend/src/jobs/analyzeLogs.ts:136-149 | without a marker the current step is the label of the row after the highest one observed, or "Completed" once row 17 is seen |
| LogAnalysisProperties.FinalRowObserved | backend/src/jobs/analyzeLogs.ts:132-162 | once the last row is observed, "Pull request created" is among the completed steps, and the job reads "Completed" unless "job failed" or "Job was cancelled" occurs, with or without the completion marker |
| LogAnalysisProperties.NotFinalizingOf | backend/src/jobs/analyzeLogs.ts:144-146 | the current step is never "Finalizing" |
| LogAnalysisProperties.NeverFinalizing | backend/src/jobs/analyzeLogs.ts:144-146 | the "Finalizing" branch is dead: every priority below 17 has a row above it |
| LogAnalysisProperties.InitializingOf | backend/src/jobs/analyzeLogs.ts:11 | "Initializing" is reported exactly when no marker occurs and nothing was found |
| LogAnalysisProperties.InitializingIff | backend/src/jobs/analyzeLogs.ts:11 | "Initializing" is reported exactly when no marker occurs and no line matches any row |
| LogAnalysisProperties.MarkerOverrides | backend/src/jobs/analyzeLogs.ts:152-162 | the completion marker forces "Completed" and the final label; otherwise "job failed" forces "Failed"; otherwise "Job was cancelled" forces "Cancelled" |
| LogAnalysisProperties.UniqueLabels | backend/src/jobs/analyzeLogs.ts:123-133 | a name is among the deduplicated labels exactly when some observation carries it |
| LogAnalysisProperties.AppendObservations | backend/src/jobs/analyzeLogs.ts:8 | appending to a newline-terminated log adds the new lines' observations after the old ones |
| LogAnalysisProperties.CompletedMonotone | backend/src/jobs/analyzeLogs.ts:132-157 | more observations and a log keeping its completion marker keep every completed label |
| LogAnalysisProperties.AppendKeepsCompletedSteps | backend/src/jobs/analyzeLogs.ts:132-157 | appending whole lines to a log never removes a label from `completedSteps` |
| LogAnalysisExample.ExampleSummary | backend/src/jobs/analyzeLogs.ts:7-168 | the log "Preparing repository\nextracted repository from issue URL\n" reports "Checking out repository" and "Analyzing issue URL" as completed, in that order, "Forking repository" as the current step, and a cost of 0 |
| LogAnalysisExample.ExampleCompleted | backend/src/jobs/analyzeLogs.ts:133-157 | with no marker in the log, the completed steps are the two observed labels |
| LogAnalysisExample.ExampleCurrent | backend/src/jobs/analyzeLogs.ts:136-146 | after a last priority of 2 the current step is the third row's label, "Forking repository" |
| LogAnalysisExample.ExampleCost | backend/src/jobs/analyzeLogs.ts:14-19 | a log without digits costs nothing |
| LogAnalysisExample.ExampleUnique | backend/src/jobs/analyzeLogs.ts:123-130 | the sort and the reduce keep both observations, in priority order |
| LogAnalysisExample.ExampleObservations | backend/src/jobs/analyzeLogs.ts:113-120 | the scan records row 1 for the first line, row 2 for the second, and nothing for the empty text after the last line end |
| LogAnalysisExample.ObservationsOfThree | backend/src/jobs/analyzeLogs.ts:113-120 | three lines are scanned one after another |
| LogAnalysisExample.ObservationsOfTwo | backend/src/jobs/analyzeLogs.ts:113-120 | two lines are scanned one after another |
| LogAnalysisExample.EmptyLineObserved | backend/src/jobs/analyzeLogs.ts:113-120 | an empty line records nothing |
| LogAnalysisExample.ExampleLines | backend/src/jobs/analyzeLogs.ts:8 | `split('\n')` gives the two lines and a trailing empty part |
| LogAnalysisExample.NoLineEnds | backend/src/jobs/analyzeLogs.ts:8 | neither line of the example holds a line end |
| LogAnalysisExample.TwoLines | backend/src/jobs/analyzeLogs.ts:8 | two lines each ended by a line end split into those lines and a trailing empty part |
| LogAnalysisExample.FirstLineObserved | backend/src/jobs/analyzeLogs.ts:23-27 | "Preparing repository" is observed as "Checking out repository" at priority 1 |
| LogAnalysisExample.SecondLineObserved | backend/src/jobs/analyzeLogs.ts:23-32 | "extracted repository from issue URL" misses the first row and is observed as "Analyzing issue URL" at priority 2 |
| LogAnalysisExample.FragmentMatches | backend/src/jobs/analyzeLogs.ts:115 | a line equal to a one-fragment pattern matches it |
| LogAnalysisExample.ExampleUnmarked | backend/src/jobs/analyzeLogs.ts:153-162 | the example holds none of the three marker texts |
| LogAnalysisExample.ExampleHasNoDigits | backend/src/jobs/analyzeLogs.ts:14 | the example holds no digit |
| LogAnalysisExample.FirstCharAbsent | backend/src/jobs/analyzeLogs.ts:153-162 | `includes` fails when the text lacks the searched text's first character |
| LogAnalysisExample.TwoInOrder | backend/src/jobs/analyzeLogs.ts:123-130 | two observations of distinct labels and increasing priority pass the sort and the reduce unchanged |
| LogAnalysisExample.SortTwo | backend/src/jobs/analyzeLogs.ts:124 | the sort leaves two observations in priority order as they are |
| LogAnalysisExample.DedupeTwo | backend/src/jobs/analyzeLogs.ts:125-130 | the reduce keeps two observations of distinct labels |
| LogAnalysisExample.FirstLineAlphabet | backend/src/jobs/analyzeLogs.ts:24 | the first line's characters lie in the stated alphabet |
| LogAnalysisExample.SecondLineAlphabet | backend/src/jobs/analyzeLogs.ts:29 | the second line's characters lie in an alphabet without "g", "j", digits or line ends |
| LogAnalysisExample.ExampleAlphabet | backend/src/jobs/analyzeLogs.ts:8 | every character of the example is a line end or in one of the two alphabets |
| RepositoryName.RepoUrlOf | backend/src/jobs/extractRepositoryName.ts:6-7 | the repository URL is the text before the first "/issues", which it does not contain, and is empty when the URL has no "/issues" (`substring(0, -1)`) |
| RepositoryName.ExtractRepositoryName | backend/src/jobs/extractRepositoryName.ts:5-11 | the name has no "/" in it, and is empty when the URL has no "/issues" |
| RepositoryName.RepositoryNameAfterLastSlash | backend/src/jobs/extractRepositoryName.ts:8-9 | the name is the text after the last "/" of the repository URL, all of it when there is none |
| RepositoryName.RepoUrlOfFirst | backend/src/jobs/extractRepositoryName.ts:6-7 | when no "/issues" starts earlier, the repository URL is everything before "/issues" |
| RepositoryName.RepositoryNameOfShape | backend/src/jobs/extractRepositoryName.ts:5-11 | `x/owner/repo/issues…` yields `repo` |
| RepositoryName.HubExample | backend/src/jobs/extractRepositoryName.ts:5-11 | "https://github.com/getAlby/hub/issues/1" yields "hub" |
| JobLog.LineOf | backend/src/jobs/createJobLogger.ts:8-9 | an entry is written as its level in brackets, its message and a line end: the text ends in a line end and contains the message (a message holding line ends spans several lines of the file) |
| JobLog.TextOf | backend/src/jobs/createJobLogger.ts:20-24 | the log file is empty exactly when nothing was logged, and otherwise ends with a line end |
| JobLog.TextOfAppend | backend/src/jobs/createJobLogger.ts:20-24 | the file only grows by whole lines: the text after `a + b` is the text after `a` followed by the text of `b` |
| JobLog.JobLogger.constructor | backend/src/jobs/createJobLogger.ts:15 | a new logger has logged nothing |
| JobLog.JobLogger.Log | backend/src/jobs/createJobLogger.ts:15-26 | a call appends exactly one entry with its level and message |
| Processes.SettleFalsy | backend/src/agent/launchAgent.ts:52-67 | the promise resolves exactly on exit code 0 or null, rejects with the spawn error itself, and otherwise with an Error naming the code |
| Processes.SettleExact | backend/src/git/prepareRepository.ts:79-90 | the clone promise resolves exactly on code 0 and otherwise rejects with an Error naming the code |
| Processes.ExitTestsDisagreeOnlyOnSignal | backend/src/git/prepareRepository.ts:81 | `!code` and `code === 0` disagree on exactly one exit, a process ended by a signal |
| PrepareRepository.ParseIssueUrl | backend/src/git/prepareRepository.ts:17-24 | the repository URL is the text before the first "/issues"; `repo` is its last "/"-segment, the same name extractRepositoryName gives; `owner` is undefined exactly when the URL has no "/", and otherwise is the slash-free segment before `/repo` |
| PrepareRepository.SegmentsOf | backend/src/git/prepareRepository.ts:19-21 | `repo` is the last part of the split and `owner` the one before it, absent exactly when there is no "/" |
| PrepareRepository.ParseIssueUrlOfShape | backend/src/git/prepareRepository.ts:17-24 | `x/owner/repo/issues/<n>…` yields that owner, that repo and issue number n |
| PrepareRepository.SegmentsOfShape | backend/src/git/prepareRepository.ts:19-21 | `x/owner/repo` splits into that owner and repo |
| PrepareRepository.IssueNumberOfShape | backend/src/git/prepareRepository.ts:22-24 | `parseInt` of the text after "/issues/" reads the written issue number |
| PrepareRepository.IssueNumberAfter | backend/src/git/prepareRepository.ts:22-24 | the issue number is `parseInt` of the text 8 characters after the first "/issues" |
| PrepareRepository.HubIssueRef | backend/src/git/prepareRepository.ts:17-24 | "https://github.com/getAlby/hub/issues/1" yields owner "getAlby", repo "hub" and issue 1 |
| PrepareRepository.IssueContent | backend/src/git/prepareRepository.ts:110 | the content is the title, a blank line and the body, with "null" for a missing body |
| PrepareRepository.Prepare | backend/src/git/prepareRepository.ts:7-117 | the method returns the result of the specification and appends exactly the specified log entries |
| PrepareRepository.ForkStep | backend/src/git/prepareRepository.ts:26-43 | the first two info lines, then "Failed to fork repo" only when the fork call fails |
| PrepareRepository.AfterUpstream | backend/src/git/prepareRepository.ts:45-64 | from the upstream lookup on: the specified result and log, the outer catch included |
| PrepareRepository.AfterClone | backend/src/git/prepareRepository.ts:66-116 | from the clone on: the specified result and log |
| PrepareRepository.PrepareSucceedsIff | backend/src/git/prepareRepository.ts:45-112 | preparation succeeds exactly when the upstream lookup, the fork sync, the clone (exit 0) and the issue lookup succeed, with the parsed owner, repo, number and the issue content |
| PrepareRepository.ForkFailureNotFatal | backend/src/git/prepareRepository.ts:34-43 | a failed fork is logged and changes neither the result nor anything logged after it |
| PrepareRepository.MergeFailureRethrown | backend/src/git/prepareRepository.ts:52-64 | a failed fork sync is logged, rethrown, and nothing after it runs |
| PrepareRepository.CloneNeedsExitZero | backend/src/git/prepareRepository.ts:79-90 | after the sync, any exit code but 0, null included, rejects with the Error naming it |
| PrepareRepository.ErrorsLoggedThenRethrown | backend/src/git/prepareRepository.ts:113-116 | every rejection is logged last with the "Error caught while preparing repository: " prefix |
| PrepareRepository.NullBodyPrepares | backend/src/git/prepareRepository.ts:100-111 | an issue without a body still prepares, with the warning logged last and "null" after the title |
| Publish.PrTitle | backend/src/git/publish.ts:126-129 | the title starts with "[Freepilot] " and holds no "-" |
| Publish.TitleWithoutDash | backend/src/git/publish.ts:127 | a branch name without "-" leaves nothing after the prefix (`lastIndexOf` is -1, so `substring(0, -1)` is empty) |
| Publish.TitleOfShape | backend/src/git/publish.ts:126-129 | for `t-d` with a dash-free last part, the title is `t` with its first "/" made ": " and every "-" made a space |
| Publish.TitleOfWords | backend/src/git/publish.ts:126-129 | `a/b-c-d-n` of dash-free words gives "[Freepilot] a: b c d": the job number goes |
| Publish.TitleExample | backend/src/git/publish.ts:126-129 | "feat/add-dark-mode-42" gives "[Freepilot] feat: add dark mode" |
| Publish.DashesToSpaces | backend/src/git/publish.ts:129 | `replaceAll("-", " ")` turns three dash-joined words into space-joined ones |
| Publish.HeadOf | backend/src/git/publish.ts:123 | the head is the bot's name, a colon, then the branch |
| Publish.HeadInjective | backend/src/git/publish.ts:123 | different branches give different heads |
| Publish.BodyOf | backend/src/git/publish.ts:115-117 | the body starts with "Fixes <issue URL>" and a blank line and ends with the link to the job's page |
| Publish.BodyLinksJob | backend/src/git/publish.ts:117 | the job id can be read back from the link: `parseInt` of the text after the body's last "/" is the id |
| Publish.PullRequestOf | backend/src/git/publish.ts:119-131 | the request names the job's owner and repo, the default branch as base, the bot's branch as head, the title and body above, and lets maintainers modify |
| Publish.Concat | backend/src/git/publish.ts:28-30 | the concatenation of no chunk is empty, of one chunk that chunk |
| Publish.Collect | backend/src/git/publish.ts:28-30 | the 'data' listener's `+=` collects the concatenation of the chunks |
| Publish.Publish | backend/src/git/publish.ts:7-151 | the method settles with the specified result, sends the specified request if any, and appends the specified log |
| Publish.ReadBranch | backend/src/git/publish.ts:18-52 | the branch-name step and everything after it, as specified |
| Publish.Push | backend/src/git/publish.ts:54-70 | the push step, which has no 'error' listener, and everything after it, as specified |
| Publish.FetchUpstream | backend/src/git/publish.ts:72-80 | the upstream lookup and everything after it, as specified |
| Publish.ReadLogs | backend/src/git/publish.ts:82-132 | the commit-log step, the body and the request, as specified |
| Publish.Open | backend/src/git/publish.ts:134-146 | the creation: the success line and the URL, or the failure line and the rethrown error |
| Publish.PublishSucceedsIff | backend/src/git/publish.ts:32-138 | publishing succeeds exactly when each git step closes with 0 or null, the upstream lookup succeeds and the creation succeeds, and then settles with the pull request's URL |
| Publish.RequestSent | backend/src/git/publish.ts:119-135 | the pull request is requested exactly when the four steps before it passed, with the trimmed branch name, the default branch and the collected commit log |
| Publish.BranchStageRequest | backend/src/git/publish.ts:32-135 | from the branch-name step on, a request is made exactly when that step, the push, the upstream lookup and the log read all pass, and it carries the trimmed branch name |
| Publish.PushStageRequest | backend/src/git/publish.ts:54-135 | from the push on, a request is made exactly when the push, the upstream lookup and the log read pass |
| Publish.UpstreamStageRequest | backend/src/git/publish.ts:76-135 | from the upstream lookup on, a request is made exactly when the lookup and the log read pass, with the upstream default branch as base |
| Publish.PrefixedCaughtLast | backend/src/git/publish.ts:147-149 | entries logged before a stage do not change what it logs last |
| Publish.FailedCaughtLast | backend/src/git/publish.ts:147-149 | a failed step ends its log with the outer catch's line |
| Publish.LogStageCaughtLast | backend/src/git/publish.ts:96-149 | a rejection from the commit-log step on ends the log with the outer catch's line |
| Publish.UpstreamStageCaughtLast | backend/src/git/publish.ts:76-149 | the same from the upstream lookup on |
| Publish.PushStageCaughtLast | backend/src/git/publish.ts:54-149 | the same from the push on |
| Publish.BranchStageCaughtLast | backend/src/git/publish.ts:18-149 | the same from the branch-name step on |
| Publish.ErrorsLoggedThenRethrown | backend/src/git/publish.ts:147-150 | every rejection is logged last with the "Error caught while publishing: " prefix and rethrown |
| Publish.BranchFailureMessage | backend/src/git/publish.ts:42-47 | a non-zero exit of the branch-name process rejects with the push step's message, as written, after logging its own line |
| Publish.SucceededLog | backend/src/git/publish.ts:18-138 | a publication that settles with a URL logged exactly its seven progress lines, ending with "successfully created pull request" |
| Publish.BranchSucceededLog | backend/src/git/publish.ts:52-138 | the same from the branch-name step on |
| Publish.PushSucceededLog | backend/src/git/publish.ts:59-138 | the same from the push on |
| Publish.UpstreamSucceededLog | backend/src/git/publish.ts:76-138 | the same from the upstream lookup on |
| Publish.CreatedLineLacks | backend/src/git/publish.ts:136 | the success line holds none of g, x, h, 2, 3 in either case, nor a line break |
| Publish.CreatedLineAlphabet | backend/src/git/publish.ts:136 | every character of the success line is a space or one of the lower-case letters a, c-f, l, p-u, y |
| JsonText.HexLower | backend/src/agent/launchAgent.ts:41 | the digit written for a value below 16 is a hexadecimal digit of that value |
| JsonText.EscapeChar | backend/src/agent/launchAgent.ts:41 | `JSON.stringify` writes every character as printable text, and a printable character other than `"` and `\` as itself |
| JsonText.Escape | backend/src/agent/launchAgent.ts:41 | the escaped text is printable, so on one line, and no shorter than the input |
| JsonText.EscapePlain | backend/src/agent/launchAgent.ts:41 | text that needs no escape is written as it is |
| JsonText.EscapeAppend | backend/src/agent/launchAgent.ts:41 | escaping works character by character: the escape of `a + b` is the escape of `a` then of `b` |
| JsonText.QuoteArray | backend/src/agent/launchAgent.ts:41 | `JSON.stringify(spawnargs)` is printable text |
| JsonText.QuoteItems | backend/src/agent/launchAgent.ts:41 | the comma-separated quoted items are printable text |
| JsonText.QuoteItemsContains | backend/src/agent/launchAgent.ts:41 | whatever one item's rendering contains, the items' rendering contains |
| JsonText.QuoteArrayContains | backend/src/agent/launchAgent.ts:41 | whatever one element's escape contains, the array's rendering contains |
| JsonText.UnescapeHead | backend/src/agent/launchAgent.ts:41 | a JSON escape at the head of the text is at least two characters long and within the text |
| JsonText.UnescapeChar | backend/src/agent/launchAgent.ts:41 | decoding the escape of one character gives that character back before the rest |
| JsonText.UnescapeEscape | backend/src/agent/launchAgent.ts:41 | decoding undoes the escaping: the logged argument list gives the exact prompt back |
| JsonText.EscapeInjective | backend/src/agent/launchAgent.ts:41 | different strings are logged differently |
| LaunchAgent.ParamRun | backend/src/agent/launchAgent.ts:45 | the run taken by `[0-?9;]*` is the longest prefix of characters U+0030 to U+003F |
| LaunchAgent.MatchLength | backend/src/agent/launchAgent.ts:45 | the length matched at the head of the text is 0 or a whole `\x1B[…m` / `\x1B[…G` sequence |
| LaunchAgent.MatchLengthExact | backend/src/agent/launchAgent.ts:45 | a sequence at the head of the text is the one matched |
| LaunchAgent.StripAnsi | backend/src/agent/launchAgent.ts:45 | the cleaned output is no longer than the chunk, and a chunk without an escape character is unchanged |
| LaunchAgent.SubsequenceOfLonger | backend/src/agent/launchAgent.ts:45 | deleting characters from a suffix deletes characters from the whole |
| LaunchAgent.StripAnsiSubsequence | backend/src/agent/launchAgent.ts:45 | the cleaned output keeps the chunk's other characters in order |
| LaunchAgent.StripAnsiPlainPrefix | backend/src/agent/launchAgent.ts:45 | text without an escape character passes through, and stripping goes on after it |
| LaunchAgent.StripAnsiSequence | backend/src/agent/launchAgent.ts:45 | a whole escape sequence is removed, whatever follows it |
| LaunchAgent.StripAnsiTextThenSequence | backend/src/agent/launchAgent.ts:45 | plain text, an escape sequence and the rest give the text and the cleaned rest |
| LaunchAgent.StripAnsiColouredWord | backend/src/agent/launchAgent.ts:45 | "\x1B[32mok\x1B[0m" is logged as "ok" |
| LaunchAgent.SplitSequenceSurvives | backend/src/agent/launchAgent.ts:43-47 | a sequence split across two 'data' chunks is logged, since each chunk is cleaned on its own |
| LaunchAgent.EscapeBracketKept | backend/src/agent/launchAgent.ts:45 | an escape and bracket with no final letter are kept |
| LaunchAgent.StripAnsiNotIdempotent | backend/src/agent/launchAgent.ts:45 | the removal is not idempotent: deleting one sequence can bring another together |
| LaunchAgent.PromptCarries | backend/src/agent/launchAgent.ts:15-24 | the prompt carries the issue content verbatim |
| LaunchAgent.PromptInjective | backend/src/agent/launchAgent.ts:15-24 | different issue contents give different prompts |
| LaunchAgent.SpawnLine | backend/src/agent/launchAgent.ts:40-42 | the spawn line starts "Spawned process: " and the argument list after it is on one line |
| LaunchAgent.ChunkEntry | backend/src/agent/launchAgent.ts:43-50 | standard output is logged cleaned at info level, standard error as it is at error level |
| LaunchAgent.ChunkEntries | backend/src/agent/launchAgent.ts:43-50 | one entry per chunk, in arrival order |
| LaunchAgent.Launch | backend/src/agent/launchAgent.ts:5-71 | the method appends exactly the specified log and never rejects |
| LaunchAgent.Spawn | backend/src/agent/launchAgent.ts:14-42 | the two lines around `spawn` |
| LaunchAgent.Forward | backend/src/agent/launchAgent.ts:43-50 | the 'data' listeners log one entry per chunk |
| LaunchAgent.Settle | backend/src/agent/launchAgent.ts:52-70 | the 'error' and 'close' listeners and the catch log the specified end entries |
| LaunchAgent.EndsQuietlyIff | backend/src/agent/launchAgent.ts:52-70 | exit code 0 and null add nothing; any other end adds exactly two error lines, the catch's last |
| LaunchAgent.NonZeroExitLogged | backend/src/agent/launchAgent.ts:62-69 | a non-zero code is logged by the handler without a colon and by the catch as an Error with one |
| LaunchAgent.SpawnErrorLogged | backend/src/agent/launchAgent.ts:53-56 | a spawn error is logged by its listener and again by the catch |
| LaunchAgent.SpawnLineCarriesPrompt | backend/src/agent/launchAgent.ts:28-42 | the spawn line holds the whole prompt, escaped, and the escape can be undone |
| JobTable.StatusNameInjective | backend/src/routes/jobs.ts:58 | different statuses are stored as different column values |
| JobTable.Written | backend/src/routes/jobs.ts:140-148 | a status write changes the status, and the PR URL only when one is given; id, URL, creation time and cleanup flag stay |
| JobTable.WrittenAll | backend/src/routes/jobs.ts:71-159 | after a series of writes the row keeps its id, URL, creation time and cleanup flag, and has the last status written |
| JobTable.WrittenAllSnoc | backend/src/routes/jobs.ts:71-159 | one more write applies on top of the earlier ones |
| JobTable.WrittenAllAppend | backend/src/routes/jobs.ts:71-159 | two series of writes apply one after the other |
| JobTable.SelectedIds | backend/src/jobs/cleanupOldRepositories.ts:23-30 | `findMany` selects exactly the stored ids whose rows the filter accepts; the model lists them in increasing order |
| JobTable.RowsOf | backend/src/jobs/cleanupOldRepositories.ts:23-30 | the rows returned are those of the selected ids, in that order |
| JobTable.JobStore.constructor | backend/src/routes/jobs.ts:55-60 | an empty table whose first id is 1 |
| JobTable.JobStore.Create | backend/src/routes/jobs.ts:55-60 | `job.create` adds a row with a fresh id, the URL and status INITIALIZING, changing nothing else |
| JobTable.JobStore.SetStatus | backend/src/routes/jobs.ts:71-78 | `job.update` of the status writes that row only and records the write |
| JobTable.JobStore.MarkCleanedUp | backend/src/jobs/cleanupOldRepositories.ts:59-66 | `job.update` of `cleanedUp` sets that flag of that row only |
| JobTable.JobStore.FindMany | backend/src/routes/stats.ts:37-45 | `findMany` returns stored rows the filter accepts, every such row; the model returns them in id order, an order the query itself does not promise |
| Cleanup.RepositoryPath | backend/src/jobs/cleanupOldRepositories.ts:38 | `path.join(jobDir, name)` adds "/name", and nothing for an empty name |
| Cleanup.FileSystem.constructor | backend/src/jobs/cleanupOldRepositories.ts:42 | the folders on disk |
| Cleanup.FileSystem.Remove | backend/src/jobs/cleanupOldRepositories.ts:41-56 | `fs.access` then `fs.rm`: the folder goes exactly when it exists and the removal does not fail |
| Cleanup.SweepOne | backend/src/jobs/cleanupOldRepositories.ts:35-74 | one iteration: the folder removed if there, the row marked unless the update fails, and the two lines logged, as specified |
| Cleanup.CleanupOldRepositories | backend/src/jobs/cleanupOldRepositories.ts:13-84 | on a failing query the error is logged and rethrown and nothing changes; otherwise the jobs older than an hour and not cleaned up are swept, between the start, count and completion lines |
| Cleanup.SweepRows | backend/src/jobs/cleanupOldRepositories.ts:34-75 | the loop leaves table, folders and log as the specification of the sweep says |
| Cleanup.SweepAllKeys | backend/src/jobs/cleanupOldRepositories.ts:34-75 | no row appears or disappears |
| Cleanup.SweepAllJobs | backend/src/jobs/cleanupOldRepositories.ts:58-66 | the sweep marks exactly the listed jobs whose update goes through and leaves every other row as it was |
| Cleanup.SweepAllFolders | backend/src/jobs/cleanupOldRepositories.ts:41-56 | the sweep removes exactly the folders it finds and can remove |
| Cleanup.SweepAllLogLength | backend/src/jobs/cleanupOldRepositories.ts:46-72 | each job adds exactly two lines |
| Cleanup.SweepAllLogLine | backend/src/jobs/cleanupOldRepositories.ts:58-72 | the second line of the k-th job is its mark, or the failure when the update fails |
| Cleanup.SweepAllLog | backend/src/jobs/cleanupOldRepositories.ts:34-75 | the log grows by two lines per job after the old ones, and each job's second line tells whether it was marked |
| Cleanup.SecondRunSelectsNone | backend/src/jobs/cleanupOldRepositories.ts:21-30 | after a run in which no update fails every swept job is cleaned up, and the same query then selects nothing |
| Cleanup.StaleRowsListed | backend/src/jobs/cleanupOldRepositories.ts:23-34 | the sweep goes through exactly the selected ids |
| JobRoutes.Rejection | backend/src/routes/jobs.ts:41-52 | a request is let through exactly when URL, user wallet and service wallet are all truthy; a falsy URL is 400 "Issue URL is required", then a falsy wallet 400 "Wallet not connected", then a missing service wallet 500 |
| JobRoutes.Post | backend/src/routes/jobs.ts:39-175 | a rejected request or a failing `create` stores nothing and starts nothing; otherwise the row is created under a fresh id with status INITIALIZING, and the reply is 201 with that id and its pipeline started, or 500 when the job directory cannot be made |
| JobRoutes.WritesIn | backend/src/routes/jobs.ts:68-161 | the status writes among a run's steps are no more than its steps |
| JobRoutes.WritesInAppend | backend/src/routes/jobs.ts:68-161 | the writes of two runs of steps one after the other are the writes of each, in order |
| JobRoutes.Emit | backend/src/routes/jobs.ts:71-159 | one step of the pipeline: a status write goes to the store and is recorded, nothing else in the store changes |
| JobRoutes.RunPipeline | backend/src/routes/jobs.ts:68-161 | the fire-and-forget block: it takes exactly the steps of the run, only this job's row changes (by those writes), and the job log grows by the run's log |
| JobRoutes.RunShape | backend/src/routes/jobs.ts:68-161 | a run is the wallet check followed by the work when the payment went through and by FAILED when not; nothing is logged without payment |
| JobRoutes.CheckWallet | backend/src/routes/jobs.ts:71-92 | CHECKING_WALLET, then the 1000-sat test invoice from the service wallet and its payment by the user's wallet |
| JobRoutes.Work | backend/src/routes/jobs.ts:97-148 | from "Preparing repository" on, the steps and the log follow the run's progress |
| JobRoutes.Continue | backend/src/routes/jobs.ts:106-159 | FAILED when the repository step failed, otherwise the agent and publication stages |
| JobRoutes.PrepareStage | backend/src/routes/jobs.ts:97-107 | "Preparing repository" is logged, PREPARING_REPOSITORY written, and the repository step's result and log passed on |
| JobRoutes.AfterPrepare | backend/src/routes/jobs.ts:108-159 | the agent, then the publication, for a prepared repository |
| JobRoutes.AgentStage | backend/src/routes/jobs.ts:108-123 | "Launching agent" is logged, AGENT_WORKING written, then the agent runs, whatever it yields |
| JobRoutes.PublishStage | backend/src/routes/jobs.ts:124-159 | PUBLISHING, then the publication, then COMPLETED with its PR URL and the completion line as the route spells it, or FAILED when it throws |
| JobRoutes.GetResponse | backend/src/routes/jobs.ts:180-214 | 400 exactly when `parseInt(id, 10)` is NaN; 200 exactly when the lookup settles, the number is a stored id and its log file reads, and then the body carries the row and the log text; otherwise 404 or 500 |
| JobRoutes.ResponseFor | backend/src/routes/jobs.ts:184-213 | the reply once the id has been parsed: 400 exactly when it is NaN; 404 exactly when the lookup settles without a row; 500 exactly when the lookup rejects or the stored job's log cannot be read; 200 otherwise |
| JobRoutes.GetReadsLeadingDigits | backend/src/routes/jobs.ts:182 | an id followed by non-digits finds the same job as the id alone |
| JobRoutes.GetFindsStoredJob | backend/src/routes/jobs.ts:190-213 | once the lookup settles, a stored job is found under its decimal id with its row as stored and the log as read, an unknown id is 404 and an unreadable log 500; a rejected lookup is 500 |
| JobRoutes.UpdateTwice | backend/src/routes/jobs.ts:140-159 | a second write to the same row overrides the first |
| JobRoutesProperties.SucceedsIff | backend/src/routes/jobs.ts:68-161 | a run succeeds exactly when the payment went through, the repository was prepared and publication returned a URL, and that URL is the one it reports |
| JobRoutesProperties.WalletWrites | backend/src/routes/jobs.ts:71-92 | the wallet check writes CHECKING_WALLET and nothing else |
| JobRoutesProperties.AgentWrites | backend/src/routes/jobs.ts:109-148 | the agent and publication stages write AGENT_WORKING, PUBLISHING and the terminal status |
| JobRoutesProperties.StepsOfWrites | backend/src/routes/jobs.ts:68-161 | the writes of a run that gets as far as some stage are the expected ones for that stage |
| JobRoutesProperties.WorkWrites | backend/src/routes/jobs.ts:97-159 | once paid, the writes after CHECKING_WALLET are the expected ones |
| JobRoutesProperties.RunWrites | backend/src/routes/jobs.ts:68-161 | the writes of a run are read off how far it gets |
| JobRoutesProperties.SuccessOrder | backend/src/routes/jobs.ts:71-148 | on success the status goes CHECKING_WALLET, PREPARING_REPOSITORY, AGENT_WORKING, PUBLISHING, then COMPLETED with the PR URL |
| JobRoutesProperties.TerminalWriteOnceOf | backend/src/routes/jobs.ts:140-159 | whatever the progress, exactly one terminal status is written, last; statuses only move forward |
| JobRoutesProperties.TerminalWriteOnce | backend/src/routes/jobs.ts:68-161 | a run ends with COMPLETED exactly when it succeeds and with FAILED otherwise, written once and last, all to its own id, with the statuses strictly advancing |
| JobRoutesProperties.PaymentBeforePreparingOf | backend/src/routes/jobs.ts:86-105 | PREPARING_REPOSITORY comes only after the invoice was made and paid, as the fourth step |
| JobRoutesProperties.PaymentBeforePreparing | backend/src/routes/jobs.ts:86-105 | PREPARING_REPOSITORY is written only when the 1000-sat test invoice was made and paid before it |
| JobRoutesProperties.AgentOutputIgnored | backend/src/routes/jobs.ts:117-123 | whatever the agent prints and however it exits, the run's steps are the same |
| JobRoutesProperties.PreparedReachesPublishing | backend/src/routes/jobs.ts:106-131 | a paid run with a prepared repository always writes PUBLISHING |
| JobRoutesProperties.PublishingWrittenOf | backend/src/routes/jobs.ts:124-131 | a run that got to publication wrote PUBLISHING |
| JobRoutesProperties.WrittenAllWithoutUrl | backend/src/routes/jobs.ts:71-131 | status writes without a PR URL keep the row's URL |
| JobRoutesProperties.FinalRowOf | backend/src/routes/jobs.ts:140-159 | the row a run leaves is COMPLETED with the PR URL, or FAILED with the URL it had |
| JobRoutesProperties.FinalRow | backend/src/routes/jobs.ts:140-159 | after a run the row is COMPLETED with the URL publication returned exactly when the run succeeded, and otherwise FAILED with its earlier PR URL |
| JobRoutesProperties.PublishStageEndsWithCompletion | backend/src/routes/jobs.ts:132-149 | a successful publication stage ends its log with the completion line as the route spells it |
| JobRoutesProperties.CompletionLoggedLast | backend/src/routes/jobs.ts:97-149 | the last line a successful run logs is that completion line |
| JobRoutesProperties.CreatedLineBeforeCompletion | backend/src/routes/jobs.ts:132-149 | just before it, a successful run logs publication's "successfully created pull request" |
| JobRoutesProperties.CompletedRunShowsCompleted | backend/src/jobs/analyzeLogs.ts:113-162 | after a successful run, whatever came before, "Pull request created" is among the completed steps, and the job reads "Completed" unless the log mentions "job failed" or "Job was cancelled" |
| JobRoutesProperties.LoggingKeepsCompletedSteps | backend/src/jobs/analyzeLogs.ts:113-157 | appending lines never removes a step the analyzer already reported as completed |
| JobRoutesProperties.PreparingLineOpensTheLog | backend/src/routes/jobs.ts:97 | a paid run's first log line is "Preparing repository" |
| JobRoutesProperties.AsWrittenLineLacksMarkerEnd | backend/src/routes/jobs.ts:149 | the completion line as written lacks the marker's last character, the party-popper emoji |
| JobRoutesProperties.AsWrittenSuccessUnseen | backend/src/routes/jobs.ts:149 | a successful publication stage adds no completion marker to a log that had none, and a log mentioning "job failed" still reads as failed |
| JobRoutesProperties.CorrectedLineShowsMarker | backend/src/jobs/analyzeLogs.ts:153 | a log ending with the completion line spelled as the analyzer expects carries the completion marker |
| JobRoutesProperties.CorrectedSuccessSeen | backend/src/jobs/analyzeLogs.ts:153-157 | with that spelling, a successful publication makes the log read "Completed", with the final step done, whatever it held before |
| LogLines.LastEntryShows | backend/src/jobs/createJobLogger.ts:15-26 | the log text contains whatever its last line's message contains |
| LogLines.EntryText | backend/src/jobs/createJobLogger.ts:15-26 | the text of a log is the text before an entry, that entry's line, then the text after it |
| LogLines.LineSplitsAt | backend/src/jobs/analyzeLogs.ts:113-120 | a one-line entry is scanned as its own line, between the lines of the entries around it |
| LogLines.PreparingLineMatchesFirstRule | backend/src/jobs/analyzeLogs.ts:22-27 | the "Preparing repository" line matches the analyzer's first row |
| LogLines.LineOfPatternMatches | backend/src/jobs/analyzeLogs.ts:113-119 | a line that carries a one-fragment pattern verbatim matches it |
| LogLines.CreatedLineLetters | backend/src/git/publish.ts:136 | the "successfully created pull request" line holds no "g", "x", "h", "2" or "3" in either case |
| LogLines.CreatedLineMatchesLastRow | backend/src/jobs/analyzeLogs.ts:103-107 | that line matches the last row's pattern |
| LogLines.CreatedLineMatchesFinalRule | backend/src/jobs/analyzeLogs.ts:103-120 | that line matches no earlier row, so it is observed as "Pull request created" with priority 17 |
| LogLines.CreatedLineObserved | backend/src/jobs/analyzeLogs.ts:113-120 | wherever that line sits in a log, the scan observes "Pull request created" with priority 17 |
| LogLines.CreatedLineObservedBeforeLast | backend/src/jobs/analyzeLogs.ts:113-120 | the same when the line is the last but one |
| LogLines.LineWithoutMarkerEnd | backend/src/jobs/analyzeLogs.ts:153-159 | a line lacking the emoji adds no completion marker, and a log that reads as failed still does after it |
| JsText.IndexOf | backend/src/jobs/extractRepositoryName.ts:6 | `indexOf` gives the first position where the pattern occurs, and -1 exactly when it occurs nowhere |
| JsText.IndexOfFirst | backend/src/jobs/extractRepositoryName.ts:6 | a pattern placed after text that does not carry it is found right there |
| JsText.PrefixBeforeFirst | backend/src/jobs/extractRepositoryName.ts:6-7 | the text before the first occurrence is followed by the pattern and does not contain it |
| JsText.LastIndexOfChar | backend/src/git/publish.ts:127 | `lastIndexOf` gives a position holding the character with none after it, and -1 exactly when it is absent |
| JsText.LastIndexOfCharAt | backend/src/git/publish.ts:127 | a position holding the character with none after it is the last index |
| JsText.Clamp | backend/src/jobs/extractRepositoryName.ts:7 | `substring` bounds are clamped into the string, leaving bounds inside it alone |
| JsText.Substring | backend/src/jobs/extractRepositoryName.ts:7 | `substring(a, b)` with bounds in order inside the string is the slice, and with both bounds at or below 0 is empty |
| JsText.SubstringFrom | backend/src/git/prepareRepository.ts:23 | `substring(a)` with `a` inside the string is the suffix from `a` |
| JsText.Split | backend/src/jobs/extractRepositoryName.ts:8 | `split` gives at least one part and no part holds the separator |
| JsText.JoinSplit | backend/src/jobs/extractRepositoryName.ts:8 | joining the parts with the separator gives the string back |
| JsText.SplitJoin | backend/src/routes/stats.ts:124 | splitting parts that carry no separator, joined by it, gives the parts back |
| JsText.SplitAround | backend/src/jobs/extractRepositoryName.ts:8 | splitting around a separator gives the parts of the left side followed by those of the right side |
| JsText.SplitLast | backend/src/jobs/extractRepositoryName.ts:8-10 | the last part of a split is a suffix of the string, preceded by a separator unless it is the whole string, and shorter than the string when there are two parts or more |
| JsText.ReplaceFirst | backend/src/git/publish.ts:128 | `replace` with a string pattern leaves a string without the character unchanged |
| JsText.ReplaceFirstSplit | backend/src/git/publish.ts:128 | only the first occurrence is replaced |
| JsText.ReplaceAll | backend/src/git/publish.ts:129 | `replaceAll` leaves no occurrence when the replacement has none, and changes nothing when there is none |
| JsText.ReplaceAllAppend | backend/src/git/publish.ts:129 | `replaceAll` works piecewise over a concatenation |
| JsText.TrimStart | backend/src/git/publish.ts:51 | the suffix left after leading white space, which starts with a non-space |
| JsText.TrimEnd | backend/src/git/publish.ts:51 | the prefix left before trailing white space, which ends with a non-space |
| JsText.Trim | backend/src/git/publish.ts:51 | `trim` gives a slice with only white space around it and none at either end |
| JsText.TrimIdempotent | backend/src/git/publish.ts:51 | trimming twice is trimming once |
| JsText.DigitRun | backend/src/routes/jobs.ts:182 | the longest prefix of decimal digits |
| JsText.HexRun | backend/src/git/prepareRepository.ts:22-24 | the longest prefix of hexadecimal digits |
| JsText.NatToString | backend/src/jobs/cleanupOldRepositories.ts:32 | `String(n)` is a non-empty run of digits with no leading zero |
| JsText.NatToStringValue | backend/src/jobs/cleanupOldRepositories.ts:32 | the digits of `String(n)` have the value `n` |
| JsText.DigitRunOfDigits | backend/src/routes/jobs.ts:182 | the digit run of digits followed by a non-digit is those digits |
| JsText.ParseInt10 | backend/src/routes/jobs.ts:182 | `parseInt(s, 10)` is NaN exactly when no digit follows the leading white space and sign |
| JsText.ParseInt10NatToString | backend/src/routes/jobs.ts:182 | `parseInt(String(n) + rest, 10)` is `n` whatever non-digit text follows |
| JsText.ParseIntNatToString | backend/src/git/prepareRepository.ts:22-24 | `parseInt(String(n) + rest)` is `n` unless an "x" follows |
| Stats.SumAppend | backend/src/routes/stats.ts:65-70 | adding up two series of matches is adding up each |
| Stats.SumOfMatches | backend/src/routes/stats.ts:60-81 | the numbers a global `(\d+)<tag>` match yields add up to the tagged-number sum the log analysis shares |
| Stats.LogTotalAppend | backend/src/routes/stats.ts:51-86 | the totals over two groups of jobs are the sum of each group's |
| Stats.UnreadableLogSkipped | backend/src/routes/stats.ts:82-85 | a job whose log cannot be read adds nothing to either total |
| Stats.OneLogCounted | backend/src/routes/stats.ts:56-81 | a job with a readable log adds that log's tagged numbers |
| Stats.TokenMentionCounted | backend/src/routes/stats.ts:60-70 | a number followed by " input" or " output", in any case, is added to the tokens |
| Stats.SatsMentionCounted | backend/src/routes/stats.ts:61-80 | a number followed by " sats", in any case, is added to the earnings |
| Stats.WideSpacingOnlyInCost | backend/src/routes/stats.ts:61 | an amount written with two or more white-space characters before "sats" is skipped by the earnings regex, while the job page's cost regex in backend/src/jobs/analyzeLogs.ts:14 counts it |
| Stats.AddMatches | backend/src/routes/stats.ts:65-70 | the inner loop adds every match's number to the running total |
| Stats.SumLogs | backend/src/routes/stats.ts:47-86 | the loop over completed jobs ends with the tokens and the sats totalled over the readable logs |
| Stats.NonSlashRun | backend/src/routes/stats.ts:105 | `[^/]+` runs greedily: the longest prefix without "/", ended by "/" when shorter than the text |
| Stats.PrAt | backend/src/routes/stats.ts:105 | a match starting at this position has a non-empty owner and repo without "/" |
| Stats.OwnerPart | backend/src/routes/stats.ts:105 | after "github.com/", the owner run of `([^/]+)` followed by "/" gives proper owner and repo segments |
| Stats.RepoPart | backend/src/routes/stats.ts:105 | the repo run of `([^/]+)` keeps the owner and is a proper segment |
| Stats.NumberPart | backend/src/routes/stats.ts:105-114 | the `(\d+)` part keeps owner and repo |
| Stats.PrFrom | backend/src/routes/stats.ts:104-106 | the leftmost match from a position on has proper owner and repo segments |
| Stats.ParsePrUrl | backend/src/routes/stats.ts:104-108 | owner and repo of a match are non-empty and contain no "/" |
| Stats.PrAtNeedsG | backend/src/routes/stats.ts:105 | no match starts anywhere but at a "g" |
| Stats.PrFromSkips | backend/src/routes/stats.ts:104-106 | the search passes over a stretch without "g" |
| Stats.NonSlashRunOf | backend/src/routes/stats.ts:105 | `[^/]+` before a "/" takes exactly the text without "/" |
| Stats.NumberPartOf | backend/src/routes/stats.ts:105-114 | `(\d+)` then `parseInt` read back the decimal number, whatever non-digit follows |
| Stats.RepoPartOf | backend/src/routes/stats.ts:105 | the repo segment ends at "/pull/" |
| Stats.OwnerPartOf | backend/src/routes/stats.ts:105 | the owner segment ends at the next "/" |
| Stats.PrAtOfText | backend/src/routes/stats.ts:105 | a match needs "github.com/" at its start |
| Stats.PrAtOf | backend/src/routes/stats.ts:105-114 | "github.com/o/r/pull/n" matches with owner o, repo r and number n |
| Stats.ParseAfterPrefix | backend/src/routes/stats.ts:104-106 | text without "g" before a match does not move it |
| Stats.ParseGitHubPrUrl | backend/src/routes/stats.ts:104-114 | a pull-request URL of the form "…github.com/o/r/pull/n…" yields owner o, repo r and number n |
| Stats.KeySplits | backend/src/routes/stats.ts:109-124 | the key `${owner}/${repo}` splits back into owner and repo |
| Stats.FindKey | backend/src/routes/stats.ts:111 | `repoStats.has(key)`: the first group with that key, or past the end when there is none |
| Stats.GroupPrs | backend/src/routes/stats.ts:98-120 | the grouping loop builds the groups the specification of the grouping gives |
| Stats.AddNumberHolds | backend/src/routes/stats.ts:114 | `Set.add` holds the number afterwards and what it held before, and keeps numbers distinct |
| Stats.AddPrHolds | backend/src/routes/stats.ts:111-114 | after adding a pull request the groups hold exactly what they held plus it |
| Stats.AddPrWell | backend/src/routes/stats.ts:111-114 | adding keeps keys distinct, each key two segments, and numbers distinct within a group |
| Stats.AddPrPresent | backend/src/routes/stats.ts:111-114 | adding a pull request already held changes nothing |
| Stats.GroupedWell | backend/src/routes/stats.ts:98-120 | the groups have distinct keys of two segments and distinct numbers |
| Stats.MentionedSnoc | backend/src/routes/stats.ts:100-101 | a pull request is mentioned by rows and one more exactly when by the rows or by the new one |
| Stats.GroupedHolds | backend/src/routes/stats.ts:100-120 | a key and number are grouped exactly when some completed row with a truthy PR URL matching the regex points to them |
| Stats.DuplicatePrIgnored | backend/src/routes/stats.ts:111-114 | a row pointing to a pull request already seen leaves the groups as they were |
| Stats.MergedInBound | backend/src/routes/stats.ts:126-141 | a repository's merged count is at most its number of pull requests |
| Stats.MergedOfBound | backend/src/routes/stats.ts:123-142 | no more pull requests are counted as merged than were grouped |
| Stats.AskedAsParsed | backend/src/routes/stats.ts:124-132 | the request split back from the key asks for the very pull request parsed |
| Stats.CountMerged | backend/src/routes/stats.ts:123-142 | the nested loops count the fetched pull requests reported as merged, skipping those whose fetch fails |
| Stats.MergedBounds | backend/src/routes/stats.ts:92-145 | without a truthy `GITHUB_TOKEN` nothing is merged; with one at most the distinct pull requests are |
| Stats.CalculateStats | backend/src/routes/stats.ts:35-154 | a failing query is an error; otherwise the job count, the two totals and the merged count over the completed rows, stamped with the clock |
| Stats.ElementsSnoc | backend/src/routes/stats.ts:148 | the set of ids of a list and one more is the set plus that id |
| Stats.IncreasingCard | backend/src/routes/stats.ts:148 | a strictly increasing list of ids has as many distinct ids as entries |
| Stats.CompletedJobsCounted | backend/src/routes/stats.ts:37-45 | `totalCompletedJobs` is the number of stored jobs whose status is COMPLETED |
| Stats.StatsCache.constructor | backend/src/routes/stats.ts:32 | nothing is cached at start |
| Stats.StatsCache.Get | backend/src/routes/stats.ts:161-191 | a fresh cache is served with `cached: true` and kept; otherwise fresh statistics are stored and served with `cached: false`, and a failure is 500 with the cache kept |

## Left out

- The HTTP layer (fastify registration, request parsing, the static-file fallback in backend/src/server.ts) and `fastify.log.error`: only each route's status code and body are modelled.
- What calls `cleanupOldRepositories` is not part of this model (backend/src/server.ts does not): a sweep is one call of `Cleanup.CleanupOldRepositories`.
- The frontend pages are not part of this model.
- Concurrency: jobs run one pipeline at a time here. The model does not cover pipelines racing each other or a sweep, and does not cover two stats requests recomputing at once.
- Octokit, Nostr Wallet Connect, Prisma, git and goose are oracles: their answers are parameters, and their own behaviour is not modelled.
- The NWC client `close()` calls have no effect on anything modelled and are left out.
- The 10-minute `timeout` option of the goose spawn is not modelled: the process's end is a parameter.
- Log metadata (winston's JSON meta objects, timestamps) and the `console.warn`/`console.error` lines outside the job log are left out; only level and message of job-log lines are kept.
- JavaScript numbers are doubles: `parseInt` of very long digit runs and the stats sums lose precision there, while the model uses unbounded naturals.
- `updatedAt` is not modelled: the GET reply carries the other columns of the row.
- Cleanup.RepositoryPath: `path.join` normalisation of "." and ".." segments and of repeated "/" is not modelled.
- Cleanup.FileSystem.Remove: folders are single entries, so nested contents are not modelled. Every `fs.access` failure is treated as absence, as the source's catch does.
- LaunchAgent.PromptCarries: states that the issue content is in the prompt. It does not state that the branch-suffix instruction carries "-<jobId>".
- Stats.ParseGitHubPrUrl: stated for URLs with no "g" before "github.com/". An earlier "g" never starts a match (`Stats.PrAtNeedsG`, `Stats.PrFromSkips`), but the general case is not proved.
- Stats.SumLogs: the two global regexes are modelled as one left-to-right scan over maximal digit runs followed by the tag. This relies on a shorter run inside a longer one never being followed by the tag.
- The launchAgent process may emit 'close' after a spawn 'error'; the model takes one end event per process.
- Publish.ReadBranch: the branch-name process (backend/src/git/publish.ts:32-48) may also emit 'close' after an 'error'. That logs one more error line, possibly after the outer catch's line; its second `reject` does nothing, as the promise has settled. The model takes one end event, so `Publish.ErrorsLoggedThenRethrown` and `Publish.BranchStageCaughtLast` do not cover that extra line.
- Publish.ReadLogs: the same for the commit-log process (backend/src/git/publish.ts:96-113), which `Publish.LogStageCaughtLast` does not cover either.
- JobTable.JobStore.SetStatus: a Prisma `job.update` that rejects is not modelled; every status write succeeds.
- JobRoutes.RunPipeline: because status writes never fail, the model does not cover a rejected update of backend/src/routes/jobs.ts:71-78, 98-105, 109-116, 124-131 or 140-148. Such a rejection jumps to the catch and writes FAILED, even after a pull request was created. A rejected FAILED update (152-159) escapes the block unhandled. The terminal-write lemmas (`JobRoutesProperties.TerminalWriteOnce`, `JobRoutesProperties.FinalRow`) cover only runs whose updates succeed.
- JobRoutes.Work: states the steps and log of a run whose status updates all succeed; a rejected update is not modelled.
- JobRoutes.Continue: the same.
- JobRoutes.AfterPrepare: the same.
- JobTable.JobStore.FindMany: Prisma's `findMany` without `orderBy` promises no order; the model returns rows in id order, and `JobTable.SelectedIds` lists ids in increasing order. No property of the sweep or the stats depends on that order.
- JobRoutes.CheckWallet: the steps always record a `makeInvoice` call. The source first builds the user's and the service's `nwc.NWCClient` (backend/src/routes/jobs.ts:79-84), and a malformed wallet URL throws there: the catch writes FAILED and no invoice is asked for. The status outcome is the same as for a failed `makeInvoice`, but the recorded steps name a call that did not happen.
- Strings are sequences of Unicode characters, while JavaScript strings are UTF-16 code units: `indexOf`, `lastIndexOf`, `substring` and `length` count code units in the source. Positions therefore differ after a character outside the Basic Multilingual Plane, such as an emoji. No modelled result depends on those positions.
- The clone and push processes have no 'error' listener in the source; a spawn error there is not modelled.

## Findings

| source | as written | input that shows it | evidently intended | confidence | as-written member | corrected member |
|---|---|---|---|---|---|---|
| backend/src/routes/jobs.ts:149 | logs "Job completed! ðŸŽ‰" (the UTF-8 bytes of U+1F389 read as Windows-1252), while backend/src/jobs/analyzeLogs.ts:153 looks for "Job completed! 🎉" | a successful run whose log mentions "job failed", for instance in the agent's output: with no marker the analyzer reads it as "Failed". A successful run without such text still reads "Completed", but only through the "successfully created pull request" row | log the party-popper emoji itself, so a completed job reads as completed whatever else its log holds | not executed | JobRoutesProperties.AsWrittenSuccessUnseen | JobRoutesProperties.CorrectedSuccessSeen |
