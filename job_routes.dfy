/** The job routes: POST validates a request, creates the job row and starts
    the pipeline without waiting for it; the pipeline checks that the user's
    wallet can pay, then prepares the repository, runs the agent and
    publishes, writing the job's status before each stage and FAILED once
    when a stage throws; GET returns a job with its log file. */
module JobRoutes {
  import opened JsText
  import opened JobLog
  import opened JobTable
  import PrepareRepository
  import LaunchAgent
  import Publish
  import Processes
  import LogAnalysis
  import LogAnalysisProperties

  // ---------------------------------------------------------------------------
  // Replies

  datatype Body =
    | Message(text: string)
    | Created(id: nat)
    | JobView(id: nat, url: string, prUrl: Option<string>, status: string, createdAt: int, logs: string)

  datatype Response = Response(code: nat, body: Body)

  // ---------------------------------------------------------------------------
  // POST /

  /** A request field or environment variable that JavaScript finds falsy:
      absent or empty. */
  predicate Missing(field: Option<string>) { field.None? || field == Some("") }

  /** The checks made before anything is stored, in the order the route makes
      them; `None` when the request passes them all. */
  function Rejection(url: Option<string>, userNwcUrl: Option<string>, serviceWallet: Option<string>): (r: Option<Response>)
    ensures r.None? <==> !Missing(url) && !Missing(userNwcUrl) && !Missing(serviceWallet)
    ensures Missing(url) ==> r == Some(Response(400, Message("Issue URL is required")))
    ensures !Missing(url) && Missing(userNwcUrl) ==> r == Some(Response(400, Message("Wallet not connected")))
    ensures r.Some? ==> (r.value.code == 400 <==> Missing(url) || Missing(userNwcUrl))
    ensures r.Some? ==> (r.value.code == 500 <==> !Missing(url) && !Missing(userNwcUrl))
  {
    if Missing(url) then Some(Response(400, Message("Issue URL is required")))
    else if Missing(userNwcUrl) then Some(Response(400, Message("Wallet not connected")))
    else if Missing(serviceWallet) then Some(Response(500, Message("Service wallet not configured")))
    else None
  }

  const SignupFailed := Response(500, Message("Internal Server Error during signup"))

  /** The POST handler up to its reply. `create` and `mkdir` are the outcomes
      of `job.create` and of creating the job directory. When the reply is
      201, `started` is the id whose pipeline the handler has set off
      (`RunPipeline`), which the reply does not wait for. */
  method Post(store: JobStore, url: Option<string>, userNwcUrl: Option<string>, serviceWallet: Option<string>,
              create: Outcome, mkdir: Outcome, now: int)
    returns (resp: Response, started: Option<nat>)
    requires store.Valid()
    modifies store
    ensures store.Valid()
    ensures store.statusWrites == old(store.statusWrites)
    ensures Rejection(url, userNwcUrl, serviceWallet).Some? ==>
              resp == Rejection(url, userNwcUrl, serviceWallet).value && started.None?
              && store.jobs == old(store.jobs) && store.nextId == old(store.nextId)
    ensures Rejection(url, userNwcUrl, serviceWallet).None? && create.Fail? ==>
              resp == SignupFailed && started.None?
              && store.jobs == old(store.jobs) && store.nextId == old(store.nextId)
    ensures Rejection(url, userNwcUrl, serviceWallet).None? && create.Pass? ==>
              var id := old(store.nextId);
              id !in old(store.jobs)
              && store.jobs == old(store.jobs)[id := Job(id, url.value, Initializing, None, now, false)]
              && (mkdir.Fail? ==> resp == SignupFailed && started.None?)
              && (mkdir.Pass? ==> resp == Response(201, Created(id)) && started == Some(id))
  {
    var rejected := Rejection(url, userNwcUrl, serviceWallet);
    if rejected.Some? {
      return rejected.value, None;
    }
    if create.Fail? {
      return SignupFailed, None;
    }
    var job := store.Create(url.value, now);
    if mkdir.Fail? {
      return SignupFailed, None;
    }
    resp, started := Response(201, Created(job.id)), Some(job.id);
  }

  // ---------------------------------------------------------------------------
  // The pipeline

  /** What the pipeline's collaborators answer, in the order it calls them:
      the service wallet's `makeInvoice`, the user wallet's `payInvoice`,
      the repository preparation, the agent process and the publication. */
  datatype PipelineReplies = PipelineReplies(
    invoice: Result<string, string>,
    payment: Outcome,
    github: PrepareRepository.GitHubReplies,
    agentChunks: seq<LaunchAgent.Chunk>,
    agentEnd: Processes.ProcessEnd,
    publish: Publish.PublishReplies)

  /** The outward effects of the pipeline, in order. */
  datatype Step =
    | MakeInvoice(amount: nat, description: string)
    | PayInvoice(invoice: string)
    | Write(w: StatusWrite)

  /** The test payment asked of the user's wallet before any work starts. */
  const TestAmount: nat := 1000
  const TestDescription := "Freepilot test payment"

  /** The line the pipeline logs when the job is done, as the route spells it:
      the UTF-8 bytes of the party-popper emoji read back as Windows-1252
      text, so the four characters U+00F0, U+0178, U+017D and U+2030 stand
      where the analyzer's marker has U+1F389. */
  const CompletionMessage := "Job completed! \U{00F0}\U{0178}\U{017D}\U{2030}"

  predicate Paid(rp: PipelineReplies) { rp.invoice.Ok? && rp.payment.Pass? }

  function Prepared(url: string, rp: PipelineReplies): Result<PrepareRepository.Prepared, string> {
    PrepareRepository.PrepareResult(PrepareRepository.ParseIssueUrl(url), rp.github)
  }

  function PublishJobOf(id: nat, url: string, bot: string, p: PrepareRepository.Prepared): Publish.PublishJob {
    Publish.PublishJob(id, url, p.owner, p.repo, bot)
  }

  function StatusStep(id: nat, s: Status): Step { Write(StatusWrite(id, s, None)) }

  /** How far a run gets: stopped by the wallet check, by the repository
      preparation or by the publication, or done with a pull request. */
  datatype Progress = Unpaid | PrepareFailed | PublishFailed | Done(prUrl: string)

  function ProgressOf(id: nat, url: string, bot: string, rp: PipelineReplies): Progress {
    if !Paid(rp) then Unpaid else RestProgress(id, url, bot, rp, Prepared(url, rp))
  }

  /** How far a paid run gets once the repository step has answered. */
  function RestProgress(id: nat, url: string, bot: string, rp: PipelineReplies,
                        prepared: Result<PrepareRepository.Prepared, string>): Progress {
    match prepared
    case Err(_) => PrepareFailed
    case Ok(p) => PublishProgress(Publish.PublishOf(PublishJobOf(id, url, bot, p), rp.publish).result)
  }

  function PublishProgress(published: Result<string, string>): Progress {
    match published
    case Err(_) => PublishFailed
    case Ok(prUrl) => Done(prUrl)
  }

  /** The whole run of the pipeline for job `id`. */
  function Steps(id: nat, url: string, bot: string, rp: PipelineReplies): seq<Step> {
    StepsOf(id, rp.invoice, ProgressOf(id, url, bot, rp))
  }

  function StepsOf(id: nat, invoice: Result<string, string>, g: Progress): seq<Step> {
    WalletSteps(id, invoice) + (if g.Unpaid? then [StatusStep(id, Failed)] else WorkSteps(id, g))
  }

  function WalletSteps(id: nat, invoice: Result<string, string>): seq<Step> {
    [StatusStep(id, CheckingWallet), MakeInvoice(TestAmount, TestDescription)]
    + (if invoice.Ok? then [PayInvoice(invoice.value)] else [])
  }

  function WorkSteps(id: nat, g: Progress): seq<Step> {
    [StatusStep(id, PreparingRepository)] + RestSteps(id, g)
  }

  function AgentSteps(id: nat, g: Progress): seq<Step> {
    [StatusStep(id, AgentWorking), StatusStep(id, Publishing), TerminalStep(id, g)]
  }

  /** COMPLETED with the pull-request URL, or FAILED. */
  function TerminalStep(id: nat, g: Progress): Step {
    if g.Done? then Write(StatusWrite(id, Completed, Some(g.prUrl))) else StatusStep(id, Failed)
  }

  /** What the pipeline adds to the job's log file. "job failed" goes to the
      console, not to this file. */
  function PipelineLog(id: nat, url: string, bot: string, rp: PipelineReplies): seq<Entry> {
    if Paid(rp) then WorkLog(id, url, bot, rp) else []
  }

  function WorkLog(id: nat, url: string, bot: string, rp: PipelineReplies): seq<Entry> {
    PrepareStageLog(rp) + RestLog(id, url, bot, rp, Prepared(url, rp))
  }

  /** Nothing more when the repository step failed. */
  function RestLog(id: nat, url: string, bot: string, rp: PipelineReplies,
                   prepared: Result<PrepareRepository.Prepared, string>): seq<Entry> {
    match prepared
    case Err(_) => []
    case Ok(p) => AfterPrepareLog(id, url, bot, rp, p)
  }

  function PrepareStageLog(rp: PipelineReplies): seq<Entry> {
    [Entry(Info, "Preparing repository")] + PrepareRepository.PrepareLog(rp.github)
  }

  function AgentStageLog(id: nat, p: PrepareRepository.Prepared, rp: PipelineReplies): seq<Entry> {
    [Entry(Info, "Launching agent")] + LaunchAgent.AgentLog(id, p.issueContent, rp.agentChunks, rp.agentEnd)
  }

  /** The publication's log, then the completion line when it succeeded. */
  function PublishStageLog(pub: Publish.Publication): seq<Entry> {
    pub.log + (if pub.result.Ok? then [Entry(Info, CompletionMessage)] else [])
  }

  /** The status writes among the steps, in order. */
  function WritesIn(steps: seq<Step>): (ws: seq<StatusWrite>)
    ensures |ws| <= |steps|
  {
    if steps == [] then []
    else
      var last := steps[|steps| - 1];
      WritesIn(steps[..|steps| - 1]) + (if last.Write? then [last.w] else [])
  }

  lemma {:induction false} WritesInAppend(a: seq<Step>, b: seq<Step>)
    ensures WritesIn(a + b) == WritesIn(a) + WritesIn(b)
    decreases |b|
  {
    if b == [] {
      assert a + b == a;
    } else {
      var init, last := b[..|b| - 1], b[|b| - 1];
      assert (a + b)[..|a + b| - 1] == a + init;
      assert (a + b)[|a + b| - 1] == last;
      WritesInAppend(a, init);
      InitLast(b);
      ConcatAssoc(WritesIn(a), WritesIn(init), if last.Write? then [last.w] else []);
    }
  }

  /** The store has taken exactly the writes among `trace` since it held
      `jobs0` and `writes0`, all of them to row `id`. */
  ghost predicate Tracks(store: JobStore, id: nat, jobs0: map<nat, Job>, writes0: seq<StatusWrite>, next0: nat, trace: seq<Step>)
    reads store
  {
    id in jobs0
    && store.jobs == jobs0[id := WrittenAll(jobs0[id], WritesIn(trace))]
    && store.statusWrites == writes0 + WritesIn(trace)
    && store.nextId == next0
  }

  /** Performs one step: a status write goes to the store; the wallet calls
      leave it alone. */
  method Emit(store: JobStore, id: nat, ghost jobs0: map<nat, Job>, ghost writes0: seq<StatusWrite>, ghost next0: nat,
              trace: seq<Step>, step: Step)
    returns (trace': seq<Step>)
    requires Tracks(store, id, jobs0, writes0, next0, trace)
    requires step.Write? ==> step.w.id == id
    modifies store
    ensures trace' == trace + [step]
    ensures Tracks(store, id, jobs0, writes0, next0, trace')
  {
    trace' := trace + [step];
    WritesInSnoc(trace, step);
    if step.Write? {
      ghost var before := WrittenAll(jobs0[id], WritesIn(trace));
      store.SetStatus(step.w);
      ConcatAssoc(writes0, WritesIn(trace), [step.w]);
      WrittenAllSnoc(jobs0[id], WritesIn(trace), step.w);
      UpdateTwice(jobs0, id, before, Written(before, step.w));
    }
  }

  lemma WritesInSnoc(trace: seq<Step>, step: Step)
    ensures WritesIn(trace + [step]) == WritesIn(trace) + (if step.Write? then [step.w] else [])
    ensures !step.Write? ==> WritesIn(trace + [step]) == WritesIn(trace)
  {
    assert (trace + [step])[..|trace|] == trace;
  }

  lemma AppendThree<T>(s: seq<T>, a: T, b: T, c: T)
    ensures s + [a] + [b, c] == s + [a, b, c]
  {
  }

  lemma UpdateTwice(m: map<nat, Job>, k: nat, a: Job, b: Job)
    ensures m[k := a][k := b] == m[k := b]
  {
  }

  /** The fire-and-forget block of the POST handler, for the job `id` the
      handler has just created. */
  method RunPipeline(store: JobStore, logger: JobLogger, id: nat, url: string, bot: string, rp: PipelineReplies)
    returns (trace: seq<Step>)
    requires id in store.jobs
    modifies store, logger
    ensures trace == Steps(id, url, bot, rp)
    ensures store.statusWrites == old(store.statusWrites) + WritesIn(trace)
    ensures store.jobs == old(store.jobs)[id := WrittenAll(old(store.jobs)[id], WritesIn(trace))]
    ensures store.nextId == old(store.nextId)
    ensures logger.entries == old(logger.entries) + PipelineLog(id, url, bot, rp)
  {
    ghost var jobs0, writes0, next0 := store.jobs, store.statusWrites, store.nextId;
    assert store.jobs == jobs0[id := WrittenAll(jobs0[id], WritesIn([]))];
    trace := CheckWallet(store, id, jobs0, writes0, next0, rp.invoice);
    RunShape(id, url, bot, rp);
    if !Paid(rp) {
      trace := Emit(store, id, jobs0, writes0, next0, trace, StatusStep(id, Failed));
    } else {
      trace := Work(store, logger, id, url, bot, rp, jobs0, writes0, next0, trace);
    }
  }

  /** The wallet steps, then the work when the payment went through and the
      FAILED write otherwise; only a paid run logs anything. */
  lemma RunShape(id: nat, url: string, bot: string, rp: PipelineReplies)
    ensures Steps(id, url, bot, rp)
            == WalletSteps(id, rp.invoice) + if Paid(rp) then WorkSteps(id, ProgressOf(id, url, bot, rp)) else [StatusStep(id, Failed)]
    ensures PipelineLog(id, url, bot, rp) == if Paid(rp) then WorkLog(id, url, bot, rp) else []
  {
    assert ProgressOf(id, url, bot, rp).Unpaid? <==> !Paid(rp);
  }

  /** CHECKING_WALLET, then the test invoice from the service wallet and,
      when it was issued, its payment from the user's wallet. */
  method CheckWallet(store: JobStore, id: nat, ghost jobs0: map<nat, Job>, ghost writes0: seq<StatusWrite>, ghost next0: nat,
                     invoice: Result<string, string>)
    returns (trace: seq<Step>)
    requires Tracks(store, id, jobs0, writes0, next0, [])
    modifies store
    ensures trace == WalletSteps(id, invoice)
    ensures Tracks(store, id, jobs0, writes0, next0, trace)
  {
    trace := Emit(store, id, jobs0, writes0, next0, [], StatusStep(id, CheckingWallet));
    trace := Emit(store, id, jobs0, writes0, next0, trace, MakeInvoice(TestAmount, TestDescription));
    AppendTwo([], StatusStep(id, CheckingWallet), MakeInvoice(TestAmount, TestDescription));
    if invoice.Ok? {
      trace := Emit(store, id, jobs0, writes0, next0, trace, PayInvoice(invoice.value));
    } else {
      assert trace + [] == trace;
    }
  }

  /** From "Preparing repository" on, once the payment went through. */
  method Work(store: JobStore, logger: JobLogger, id: nat, url: string, bot: string, rp: PipelineReplies,
              ghost jobs0: map<nat, Job>, ghost writes0: seq<StatusWrite>, ghost next0: nat, trace0: seq<Step>)
    returns (trace: seq<Step>)
    requires Paid(rp) && Tracks(store, id, jobs0, writes0, next0, trace0)
    modifies store, logger
    ensures trace == trace0 + WorkSteps(id, ProgressOf(id, url, bot, rp))
    ensures Tracks(store, id, jobs0, writes0, next0, trace)
    ensures logger.entries == old(logger.entries) + WorkLog(id, url, bot, rp)
  {
    ghost var before := logger.entries;
    var prepared;
    trace, prepared := PrepareStage(store, logger, id, url, rp, jobs0, writes0, next0, trace0);
    ghost var middle := trace;
    trace := Continue(store, logger, id, url, bot, rp, prepared, jobs0, writes0, next0, trace);
    ghost var g := RestProgress(id, url, bot, rp, prepared);
    ConcatAssoc(trace0, [StatusStep(id, PreparingRepository)], RestSteps(id, g));
    ConcatAssoc(before, PrepareStageLog(rp), RestLog(id, url, bot, rp, prepared));
  }

  /** The steps after PREPARING_REPOSITORY. */
  function RestSteps(id: nat, g: Progress): seq<Step> {
    if g.PrepareFailed? then [StatusStep(id, Failed)] else AgentSteps(id, g)
  }

  /** FAILED when the repository step failed, otherwise the agent and the
      publication. */
  method Continue(store: JobStore, logger: JobLogger, id: nat, url: string, bot: string, rp: PipelineReplies,
                  prepared: Result<PrepareRepository.Prepared, string>,
                  ghost jobs0: map<nat, Job>, ghost writes0: seq<StatusWrite>, ghost next0: nat, trace0: seq<Step>)
    returns (trace: seq<Step>)
    requires Tracks(store, id, jobs0, writes0, next0, trace0)
    modifies store, logger
    ensures trace == trace0 + RestSteps(id, RestProgress(id, url, bot, rp, prepared))
    ensures Tracks(store, id, jobs0, writes0, next0, trace)
    ensures logger.entries == old(logger.entries) + RestLog(id, url, bot, rp, prepared)
  {
    if prepared.Err? {
      assert RestSteps(id, RestProgress(id, url, bot, rp, prepared)) == [StatusStep(id, Failed)];
      assert RestLog(id, url, bot, rp, prepared) == [];
      trace := Emit(store, id, jobs0, writes0, next0, trace0, StatusStep(id, Failed));
      assert logger.entries == old(logger.entries) + [];
    } else {
      var p := prepared.value;
      var g := PublishProgress(Publish.PublishOf(PublishJobOf(id, url, bot, p), rp.publish).result);
      assert RestSteps(id, RestProgress(id, url, bot, rp, prepared)) == AgentSteps(id, g);
      assert RestLog(id, url, bot, rp, prepared) == AfterPrepareLog(id, url, bot, rp, p);
      trace := AfterPrepare(store, logger, id, url, bot, rp, p, jobs0, writes0, next0, trace0);
    }
  }

  /** PREPARING_REPOSITORY, then the fork, clone and branch. */
  method PrepareStage(store: JobStore, logger: JobLogger, id: nat, url: string, rp: PipelineReplies,
                      ghost jobs0: map<nat, Job>, ghost writes0: seq<StatusWrite>, ghost next0: nat, trace0: seq<Step>)
    returns (trace: seq<Step>, prepared: Result<PrepareRepository.Prepared, string>)
    requires Tracks(store, id, jobs0, writes0, next0, trace0)
    modifies store, logger
    ensures trace == trace0 + [StatusStep(id, PreparingRepository)]
    ensures Tracks(store, id, jobs0, writes0, next0, trace)
    ensures prepared == Prepared(url, rp)
    ensures logger.entries == old(logger.entries) + PrepareStageLog(rp)
  {
    ghost var before := logger.entries;
    logger.Log(Info, "Preparing repository");
    trace := Emit(store, id, jobs0, writes0, next0, trace0, StatusStep(id, PreparingRepository));
    prepared := PrepareRepository.Prepare(logger, url, rp.github);
    ConcatAssoc(before, [Entry(Info, "Preparing repository")], PrepareRepository.PrepareLog(rp.github));
  }

  /** The log from "Launching agent" on. */
  function AfterPrepareLog(id: nat, url: string, bot: string, rp: PipelineReplies, p: PrepareRepository.Prepared): seq<Entry> {
    AgentStageLog(id, p, rp) + PublishStageLog(Publish.PublishOf(PublishJobOf(id, url, bot, p), rp.publish))
  }

  /** The agent, then the publication, for a prepared repository. */
  method AfterPrepare(store: JobStore, logger: JobLogger, id: nat, url: string, bot: string, rp: PipelineReplies,
                      p: PrepareRepository.Prepared,
                      ghost jobs0: map<nat, Job>, ghost writes0: seq<StatusWrite>, ghost next0: nat, trace0: seq<Step>)
    returns (trace: seq<Step>)
    requires Tracks(store, id, jobs0, writes0, next0, trace0)
    modifies store, logger
    ensures trace == trace0 + AgentSteps(id, PublishProgress(Publish.PublishOf(PublishJobOf(id, url, bot, p), rp.publish).result))
    ensures Tracks(store, id, jobs0, writes0, next0, trace)
    ensures logger.entries == old(logger.entries) + AfterPrepareLog(id, url, bot, rp, p)
  {
    ghost var before := logger.entries;
    ghost var middle := trace0;
    trace := AgentStage(store, logger, id, p, rp, jobs0, writes0, next0, trace0);
    var published;
    trace, published := PublishStage(store, logger, id, PublishJobOf(id, url, bot, p), rp.publish, jobs0, writes0, next0, trace);
    AppendThree(middle, StatusStep(id, AgentWorking), StatusStep(id, Publishing), TerminalStep(id, PublishProgress(published)));
    ConcatAssoc(before, AgentStageLog(id, p, rp), PublishStageLog(Publish.PublishOf(PublishJobOf(id, url, bot, p), rp.publish)));
  }

  /** AGENT_WORKING, then the agent's run on the prepared repository. */
  method AgentStage(store: JobStore, logger: JobLogger, id: nat, p: PrepareRepository.Prepared, rp: PipelineReplies,
                    ghost jobs0: map<nat, Job>, ghost writes0: seq<StatusWrite>, ghost next0: nat, trace0: seq<Step>)
    returns (trace: seq<Step>)
    requires Tracks(store, id, jobs0, writes0, next0, trace0)
    modifies store, logger
    ensures trace == trace0 + [StatusStep(id, AgentWorking)]
    ensures Tracks(store, id, jobs0, writes0, next0, trace)
    ensures logger.entries == old(logger.entries) + AgentStageLog(id, p, rp)
  {
    ghost var before := logger.entries;
    logger.Log(Info, "Launching agent");
    trace := Emit(store, id, jobs0, writes0, next0, trace0, StatusStep(id, AgentWorking));
    LaunchAgent.Launch(logger, id, p.issueContent, rp.agentChunks, rp.agentEnd);
    ConcatAssoc(before, [Entry(Info, "Launching agent")], LaunchAgent.AgentLog(id, p.issueContent, rp.agentChunks, rp.agentEnd));
  }

  /** PUBLISHING, the publication, then COMPLETED with the pull request's
      address and the completion line, or FAILED. */
  method PublishStage(store: JobStore, logger: JobLogger, id: nat, job: Publish.PublishJob, replies: Publish.PublishReplies,
                      ghost jobs0: map<nat, Job>, ghost writes0: seq<StatusWrite>, ghost next0: nat, trace0: seq<Step>)
    returns (trace: seq<Step>, published: Result<string, string>)
    requires Tracks(store, id, jobs0, writes0, next0, trace0)
    modifies store, logger
    ensures published == Publish.PublishOf(job, replies).result
    ensures trace == trace0 + [StatusStep(id, Publishing), TerminalStep(id, PublishProgress(published))]
    ensures Tracks(store, id, jobs0, writes0, next0, trace)
    ensures logger.entries == old(logger.entries) + PublishStageLog(Publish.PublishOf(job, replies))
  {
    ghost var before := logger.entries;
    trace := Emit(store, id, jobs0, writes0, next0, trace0, StatusStep(id, Publishing));
    var sent;
    published, sent := Publish.Publish(logger, job, replies);
    ghost var pubLog := logger.entries[|before|..];
    assert logger.entries == before + pubLog;
    trace := Emit(store, id, jobs0, writes0, next0, trace, TerminalStep(id, PublishProgress(published)));
    AppendTwo(trace0, StatusStep(id, Publishing), TerminalStep(id, PublishProgress(published)));
    if published.Ok? {
      logger.Log(Info, CompletionMessage);
      ConcatAssoc(before, pubLog, [Entry(Info, CompletionMessage)]);
    } else {
      assert pubLog + [] == pubLog;
    }
  }

  // ---------------------------------------------------------------------------
  // GET /:id

  const InvalidId := Response(400, Message("Invalid App ID format."))
  const NotFound := Response(404, Message("Issue not found."))
  const ServerError := Response(500, Message("Internal Server Error."))

  /** The GET handler over the table `jobs`; `lookup` is how the table's
      `findUnique` settles (a rejection lands in the catch) and `logFile` is
      what reading the job's log.txt gives (an error when it is missing). */
  function GetResponse(jobs: map<nat, Job>, id: string, lookup: Outcome, logFile: Result<string, string>): (resp: Response)
    ensures resp.code == 400 <==> ParseInt10(id).None?
    ensures resp.code == 200 <==> ParseInt10(id).Some? && lookup.Pass? && ParseInt10(id).value >= 0
                                  && ParseInt10(id).value in jobs && logFile.Ok?
    ensures resp.code == 200 ==> resp.body.JobView? && resp.body.logs == logFile.value
    ensures resp.code in {200, 400, 404, 500}
  {
    var parsed := ParseInt10(id);
    ResponseFor(jobs, parsed, lookup, logFile)
  }

  /** The reply once the id has been parsed: a failed lookup or an unreadable
      log is 500, a number that names no row 404. */
  function ResponseFor(jobs: map<nat, Job>, parsed: Option<int>, lookup: Outcome, logFile: Result<string, string>): (resp: Response)
    ensures resp.code == 400 <==> parsed.None?
    ensures resp.code == 404 <==> parsed.Some? && lookup.Pass? && (parsed.value < 0 || parsed.value !in jobs)
    ensures resp.code == 500 <==> parsed.Some? && (lookup.Fail? || (parsed.value >= 0 && parsed.value in jobs && logFile.Err?))
    ensures resp.code == 200 <==> parsed.Some? && lookup.Pass? && parsed.value >= 0 && parsed.value in jobs && logFile.Ok?
    ensures resp.code == 200 ==> resp.body.JobView? && resp.body.logs == logFile.value
    ensures resp.code in {200, 400, 404, 500}
  {
    match parsed
    case None => InvalidId
    case Some(n) =>
      if lookup.Fail? then ServerError
      else if n < 0 || n !in jobs then NotFound
      else if logFile.Err? then ServerError
      else
        var job := jobs[n];
        Response(200, JobView(job.id, job.url, job.prUrl, StatusName(job.status), job.createdAt, logFile.value))
  }

  /** `parseInt(id, 10)` reads the leading digits only: "12abc" finds job 12. */
  lemma GetReadsLeadingDigits(jobs: map<nat, Job>, n: nat, rest: string, lookup: Outcome, logFile: Result<string, string>)
    requires rest == [] || !IsDigit(rest[0])
    ensures GetResponse(jobs, NatToString(n) + rest, lookup, logFile) == GetResponse(jobs, NatToString(n), lookup, logFile)
  {
    ParseInt10NatToString(n, rest);
    ParseInt10NatToString(n, []);
    assert NatToString(n) + [] == NatToString(n);
    assert ParseInt10(NatToString(n) + rest) == ParseInt10(NatToString(n));
  }

  /** Once the lookup settles, a stored job is found under its id, with its
      row as stored and the log text as read; an id not in the table is 404;
      a rejected lookup is 500 whatever the id. */
  lemma GetFindsStoredJob(jobs: map<nat, Job>, nextId: nat, n: nat, lookup: Outcome, logFile: Result<string, string>)
    requires Keyed(jobs, nextId)
    ensures lookup.Pass? && n in jobs && logFile.Ok? ==>
              var job := jobs[n];
              GetResponse(jobs, NatToString(n), lookup, logFile)
              == Response(200, JobView(n, job.url, job.prUrl, StatusName(job.status), job.createdAt, logFile.value))
    ensures lookup.Pass? && n !in jobs ==> GetResponse(jobs, NatToString(n), lookup, logFile) == NotFound
    ensures lookup.Pass? && n in jobs && logFile.Err? ==> GetResponse(jobs, NatToString(n), lookup, logFile) == ServerError
    ensures lookup.Fail? ==> GetResponse(jobs, NatToString(n), lookup, logFile) == ServerError
  {
    ParseInt10NatToString(n, []);
    assert NatToString(n) + [] == NatToString(n);
  }
}
