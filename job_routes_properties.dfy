/** What the job pipeline guarantees about the status column and the job's
    log: the order of the writes, the single terminal write, the payment
    before any work, and how the log analyzer reads the log the pipeline
    leaves. Each property is proved once over a run's `Progress` and then
    read off for the replies that give that progress. */
module JobRoutesProperties {
  import opened JsText
  import opened JobLog
  import opened JobTable
  import opened JobRoutes
  import PrepareRepository
  import Publish
  import LaunchAgent
  import Processes
  import LogAnalysis
  import LogAnalysisProperties
  import opened LogLines

  /** Every stage went through. */
  predicate Succeeds(id: nat, url: string, bot: string, rp: PipelineReplies) {
    ProgressOf(id, url, bot, rp).Done?
  }

  /** The pull-request URL publication returned. */
  function PrUrl(id: nat, url: string, bot: string, rp: PipelineReplies): string
    requires Succeeds(id, url, bot, rp)
  {
    ProgressOf(id, url, bot, rp).prUrl
  }

  /** A run succeeds exactly when the payment went through, the repository
      was prepared and publication returned a URL, and that URL is the one
      the run reports. */
  lemma SucceedsIff(id: nat, url: string, bot: string, rp: PipelineReplies)
    ensures Succeeds(id, url, bot, rp) <==>
              Paid(rp) && Prepared(url, rp).Ok?
              && Publish.PublishOf(PublishJobOf(id, url, bot, Prepared(url, rp).value), rp.publish).result.Ok?
    ensures Succeeds(id, url, bot, rp) ==>
              PrUrl(id, url, bot, rp)
              == Publish.PublishOf(PublishJobOf(id, url, bot, Prepared(url, rp).value), rp.publish).result.value
  {
    if Paid(rp) && Prepared(url, rp).Ok? {
      var p := Prepared(url, rp).value;
      assert ProgressOf(id, url, bot, rp) == PublishProgress(Publish.PublishOf(PublishJobOf(id, url, bot, p), rp.publish).result);
    }
  }

  function W(id: nat, s: Status): StatusWrite { StatusWrite(id, s, None) }

  /** The position of a status in the pipeline; FAILED comes after all. */
  function Rank(s: Status): nat {
    match s
    case Initializing => 0
    case CheckingWallet => 1
    case PreparingRepository => 2
    case AgentWorking => 3
    case Publishing => 4
    case Completed => 5
    case Failed => 6
  }

  /** The write the run ends with. */
  function TerminalWrite(id: nat, g: Progress): StatusWrite {
    if g.Done? then StatusWrite(id, Completed, Some(g.prUrl)) else W(id, Failed)
  }

  /** The status writes of a run that gets as far as `g`, stage by stage. */
  function ExpectedWrites(id: nat, g: Progress): seq<StatusWrite> {
    match g
    case Unpaid => [W(id, CheckingWallet), W(id, Failed)]
    case PrepareFailed => [W(id, CheckingWallet), W(id, PreparingRepository), W(id, Failed)]
    case _ => [W(id, CheckingWallet), W(id, PreparingRepository), W(id, AgentWorking), W(id, Publishing), TerminalWrite(id, g)]
  }

  // ---------------------------------------------------------------------------
  // The status writes

  lemma WritesOfOne(a: StatusWrite)
    ensures WritesIn([Write(a)]) == [a]
  {
    WritesInSnoc([], Write(a));
    assert [] + [Write(a)] == [Write(a)];
  }

  lemma WritesOfThree(a: StatusWrite, b: StatusWrite, c: StatusWrite)
    ensures WritesIn([Write(a), Write(b), Write(c)]) == [a, b, c]
  {
    WritesOfOne(a);
    WritesInSnoc([Write(a)], Write(b));
    assert [Write(a)] + [Write(b)] == [Write(a), Write(b)];
    WritesInSnoc([Write(a), Write(b)], Write(c));
    assert [Write(a), Write(b)] + [Write(c)] == [Write(a), Write(b), Write(c)];
  }

  /** The wallet check writes CHECKING_WALLET and nothing else. */
  lemma WalletWrites(id: nat, invoice: Result<string, string>)
    ensures WritesIn(WalletSteps(id, invoice)) == [W(id, CheckingWallet)]
  {
    var head := [StatusStep(id, CheckingWallet), MakeInvoice(TestAmount, TestDescription)];
    var tail: seq<Step> := if invoice.Ok? then [PayInvoice(invoice.value)] else [];
    WritesInAppend(head, tail);
    assert head[..1] == [StatusStep(id, CheckingWallet)];
    WritesOfOne(W(id, CheckingWallet));
    assert WritesIn(head) == [W(id, CheckingWallet)];
    if invoice.Ok? {
      assert WritesIn(tail) == [] by {
        assert tail[..0] == [];
      }
    }
  }

  lemma AgentWrites(id: nat, g: Progress)
    ensures WritesIn(AgentSteps(id, g)) == [W(id, AgentWorking), W(id, Publishing), TerminalWrite(id, g)]
  {
    var last := TerminalWrite(id, g);
    assert AgentSteps(id, g) == [Write(W(id, AgentWorking)), Write(W(id, Publishing)), Write(last)];
    WritesOfThree(W(id, AgentWorking), W(id, Publishing), last);
  }

  /** The writes of a run that gets as far as `g` are the expected ones. */
  lemma StepsOfWrites(id: nat, invoice: Result<string, string>, g: Progress)
    ensures WritesIn(StepsOf(id, invoice, g)) == ExpectedWrites(id, g)
  {
    WalletWrites(id, invoice);
    var rest := if g.Unpaid? then [StatusStep(id, Failed)] else WorkSteps(id, g);
    WritesInAppend(WalletSteps(id, invoice), rest);
    if g.Unpaid? {
      WritesOfOne(W(id, Failed));
    } else {
      WorkWrites(id, g);
    }
  }

  /** From PREPARING_REPOSITORY on: FAILED right after it, or the agent's
      and the publication's writes. */
  lemma WorkWrites(id: nat, g: Progress)
    requires !g.Unpaid?
    ensures [W(id, CheckingWallet)] + WritesIn(WorkSteps(id, g)) == ExpectedWrites(id, g)
  {
    var first := [StatusStep(id, PreparingRepository)];
    WritesInAppend(first, RestSteps(id, g));
    WritesOfOne(W(id, PreparingRepository));
    if g.PrepareFailed? {
      WritesOfOne(W(id, Failed));
    } else {
      AgentWrites(id, g);
    }
  }

  /** The writes of a run, read off its progress. */
  lemma RunWrites(id: nat, url: string, bot: string, rp: PipelineReplies)
    ensures WritesIn(Steps(id, url, bot, rp)) == ExpectedWrites(id, ProgressOf(id, url, bot, rp))
  {
    StepsOfWrites(id, rp.invoice, ProgressOf(id, url, bot, rp));
  }

  /** On the success path the status goes CHECKING_WALLET, PREPARING_REPOSITORY,
      AGENT_WORKING, PUBLISHING, then COMPLETED together with the URL of the
      pull request publication opened. */
  lemma SuccessOrder(id: nat, url: string, bot: string, rp: PipelineReplies)
    requires Succeeds(id, url, bot, rp)
    ensures WritesIn(Steps(id, url, bot, rp))
            == [W(id, CheckingWallet), W(id, PreparingRepository), W(id, AgentWorking), W(id, Publishing),
                StatusWrite(id, Completed, Some(PrUrl(id, url, bot, rp)))]
  {
    RunWrites(id, url, bot, rp);
  }

  /** Whatever the progress, the run ends in exactly one terminal write:
      COMPLETED when it is done, otherwise FAILED, written once and last;
      statuses never go back, so none is written twice. */
  lemma TerminalWriteOnceOf(id: nat, invoice: Result<string, string>, g: Progress)
    ensures var ws := WritesIn(StepsOf(id, invoice, g));
            |ws| >= 2
            && (ws[|ws| - 1].status == Completed <==> g.Done?)
            && (ws[|ws| - 1].status == Failed <==> !g.Done?)
            && (forall i :: 0 <= i < |ws| - 1 ==> ws[i].status != Failed && ws[i].status != Completed)
            && (forall i, j :: 0 <= i < j < |ws| ==> Rank(ws[i].status) < Rank(ws[j].status))
            && (forall i :: 0 <= i < |ws| ==> ws[i].id == id)
  {
    StepsOfWrites(id, invoice, g);
  }

  lemma TerminalWriteOnce(id: nat, url: string, bot: string, rp: PipelineReplies)
    ensures var ws := WritesIn(Steps(id, url, bot, rp));
            |ws| >= 2
            && (ws[|ws| - 1].status == Completed <==> Succeeds(id, url, bot, rp))
            && (ws[|ws| - 1].status == Failed <==> !Succeeds(id, url, bot, rp))
            && (forall i :: 0 <= i < |ws| - 1 ==> ws[i].status != Failed && ws[i].status != Completed)
            && (forall i, j :: 0 <= i < j < |ws| ==> Rank(ws[i].status) < Rank(ws[j].status))
            && (forall i :: 0 <= i < |ws| ==> ws[i].id == id)
  {
    var g := ProgressOf(id, url, bot, rp);
    assert Steps(id, url, bot, rp) == StepsOf(id, rp.invoice, g);
    assert Succeeds(id, url, bot, rp) == g.Done?;
    TerminalWriteOnceOf(id, rp.invoice, g);
  }

  /** In a run that gets as far as `g`, PREPARING_REPOSITORY is written only
      after the test invoice was asked for and paid, as the fourth step. */
  lemma PaymentBeforePreparingOf(id: nat, invoice: Result<string, string>, g: Progress)
    requires !g.Unpaid? ==> invoice.Ok?
    ensures var steps := StepsOf(id, invoice, g);
            forall i :: 0 <= i < |steps| && steps[i] == StatusStep(id, PreparingRepository) ==>
              !g.Unpaid? && i == 3
              && steps[1] == MakeInvoice(1000, "Freepilot test payment")
              && steps[2] == PayInvoice(invoice.value)
  {
    var steps := StepsOf(id, invoice, g);
    var wallet := WalletSteps(id, invoice);
    if !g.Unpaid? {
      var tail := if g.PrepareFailed? then [StatusStep(id, Failed)] else AgentSteps(id, g);
      assert forall k :: 0 <= k < |tail| ==> tail[k] != StatusStep(id, PreparingRepository);
      assert |wallet| == 3;
      assert steps == wallet + ([StatusStep(id, PreparingRepository)] + tail);
    } else {
      assert steps == wallet + [StatusStep(id, Failed)];
    }
  }

  /** The test payment is asked for and made before PREPARING_REPOSITORY is
      written; without it nothing is prepared. */
  lemma PaymentBeforePreparing(id: nat, url: string, bot: string, rp: PipelineReplies)
    ensures var steps := Steps(id, url, bot, rp);
            forall i :: 0 <= i < |steps| && steps[i] == StatusStep(id, PreparingRepository) ==>
              Paid(rp) && i == 3
              && steps[1] == MakeInvoice(1000, "Freepilot test payment")
              && steps[2] == PayInvoice(rp.invoice.value)
  {
    var g := ProgressOf(id, url, bot, rp);
    assert !g.Unpaid? <==> Paid(rp);
    PaymentBeforePreparingOf(id, rp.invoice, g);
  }

  /** The agent stage cannot fail the job: whatever the agent process prints
      and however it ends, the steps are the same. */
  lemma AgentOutputIgnored(id: nat, url: string, bot: string, rp: PipelineReplies,
                           chunks: seq<LaunchAgent.Chunk>, end: Processes.ProcessEnd)
    ensures Steps(id, url, bot, rp.(agentChunks := chunks, agentEnd := end)) == Steps(id, url, bot, rp)
  {
    var rp' := rp.(agentChunks := chunks, agentEnd := end);
    assert Paid(rp') == Paid(rp) && Prepared(url, rp') == Prepared(url, rp) && rp'.publish == rp.publish;
    assert ProgressOf(id, url, bot, rp') == ProgressOf(id, url, bot, rp);
  }

  /** A paid run with a prepared repository always reaches PUBLISHING. */
  lemma PreparedReachesPublishing(id: nat, url: string, bot: string, rp: PipelineReplies)
    requires Paid(rp) && Prepared(url, rp).Ok?
    ensures W(id, Publishing) in WritesIn(Steps(id, url, bot, rp))
  {
    var g := ProgressOf(id, url, bot, rp);
    assert g.PublishFailed? || g.Done?;
    assert Steps(id, url, bot, rp) == StepsOf(id, rp.invoice, g);
    PublishingWrittenOf(id, rp.invoice, g);
  }

  lemma PublishingWrittenOf(id: nat, invoice: Result<string, string>, g: Progress)
    requires g.PublishFailed? || g.Done?
    ensures W(id, Publishing) in WritesIn(StepsOf(id, invoice, g))
  {
    StepsOfWrites(id, invoice, g);
    assert ExpectedWrites(id, g)[3] == W(id, Publishing);
  }

  lemma {:induction false} WrittenAllWithoutUrl(job: Job, ws: seq<StatusWrite>)
    requires forall i :: 0 <= i < |ws| ==> ws[i].prUrl.None?
    ensures WrittenAll(job, ws).prUrl == job.prUrl
    decreases |ws|
  {
    if ws != [] {
      WrittenAllWithoutUrl(job, ws[..|ws| - 1]);
    }
  }

  /** The row a run that gets as far as `g` leaves: COMPLETED with the
      pull-request URL, or FAILED with the URL it had. */
  lemma FinalRowOf(job: Job, id: nat, invoice: Result<string, string>, g: Progress)
    ensures var row := WrittenAll(job, WritesIn(StepsOf(id, invoice, g)));
            (g.Done? ==> row.status == Completed && row.prUrl == Some(g.prUrl))
            && (!g.Done? ==> row.status == Failed && row.prUrl == job.prUrl)
  {
    StepsOfWrites(id, invoice, g);
    var ws := ExpectedWrites(id, g);
    var init := ws[..|ws| - 1];
    assert forall i :: 0 <= i < |init| ==> init[i].prUrl.None?;
    WrittenAllWithoutUrl(job, init);
    assert ws == init + [ws[|ws| - 1]];
    WrittenAllSnoc(job, init, ws[|ws| - 1]);
  }

  /** The row the run leaves: COMPLETED with the pull-request URL publication
      returned, or FAILED with the URL it had. */
  lemma FinalRow(job: Job, id: nat, url: string, bot: string, rp: PipelineReplies)
    ensures var row := WrittenAll(job, WritesIn(Steps(id, url, bot, rp)));
            (Succeeds(id, url, bot, rp) ==> row.status == Completed && row.prUrl == Some(PrUrl(id, url, bot, rp)))
            && (!Succeeds(id, url, bot, rp) ==> row.status == Failed && row.prUrl == job.prUrl)
  {
    FinalRowOf(job, id, rp.invoice, ProgressOf(id, url, bot, rp));
  }

  // ---------------------------------------------------------------------------
  // The log

  lemma LastOfAppend<T>(a: seq<T>, b: seq<T>)
    requires b != []
    ensures a + b != [] && (a + b)[|a + b| - 1] == b[|b| - 1]
  {
  }

  /** A successful publication's stage ends its log with the completion line. */
  lemma PublishStageEndsWithCompletion(pub: Publish.Publication)
    requires pub.result.Ok?
    ensures var log := PublishStageLog(pub);
            log != [] && log[|log| - 1] == Entry(Info, CompletionMessage)
  {
    LastOfAppend(pub.log, [Entry(Info, CompletionMessage)]);
  }

  /** The last thing a successful run logs is the completion message. */
  lemma CompletionLoggedLast(id: nat, url: string, bot: string, rp: PipelineReplies)
    requires Succeeds(id, url, bot, rp)
    ensures var log := PipelineLog(id, url, bot, rp);
            log != [] && log[|log| - 1] == Entry(Info, CompletionMessage)
  {
    SucceedsIff(id, url, bot, rp);
    var p := Prepared(url, rp).value;
    var pub := Publish.PublishOf(PublishJobOf(id, url, bot, p), rp.publish);
    var head := [Entry(Info, "Preparing repository")] + PrepareRepository.PrepareLog(rp.github);
    assert PipelineLog(id, url, bot, rp) == head + AfterPrepareLog(id, url, bot, rp, p);
    PublishStageEndsWithCompletion(pub);
    LastOfAppend(AgentStageLog(id, p, rp), PublishStageLog(pub));
    LastOfAppend(head, AfterPrepareLog(id, url, bot, rp, p));
  }

  /** Just before the completion line, a successful run logs the
      publication's success line. */
  lemma CreatedLineBeforeCompletion(id: nat, url: string, bot: string, rp: PipelineReplies)
    requires Succeeds(id, url, bot, rp)
    ensures var log := PipelineLog(id, url, bot, rp);
            |log| >= 2 && log[|log| - 2] == Entry(Info, Publish.CreatedLine)
            && log[|log| - 1] == Entry(Info, CompletionMessage)
  {
    SucceedsIff(id, url, bot, rp);
    var p := Prepared(url, rp).value;
    var pub := Publish.PublishOf(PublishJobOf(id, url, bot, p), rp.publish);
    Publish.SucceededLog(PublishJobOf(id, url, bot, p), rp.publish);
    var head := [Entry(Info, "Preparing repository")] + PrepareRepository.PrepareLog(rp.github);
    var before := head + AgentStageLog(id, p, rp);
    assert PipelineLog(id, url, bot, rp) == head + AfterPrepareLog(id, url, bot, rp, p);
    ConcatAssoc(head, AgentStageLog(id, p, rp), PublishStageLog(pub));
    ConcatAssoc(before, pub.log, [Entry(Info, CompletionMessage)]);
  }

  /** Without the completion marker to go on, a successful run still reads
      as completed through its success line: "Pull request created" is among
      the completed steps, and the job reads "Completed" unless the log
      mentions "job failed" or "Job was cancelled". */
  lemma CompletedRunShowsCompleted(prior: seq<Entry>, id: nat, url: string, bot: string, rp: PipelineReplies)
    requires Succeeds(id, url, bot, rp)
    ensures var text := TextOf(prior + PipelineLog(id, url, bot, rp));
            var r := LogAnalysis.Summarize(text);
            LogAnalysis.FinalStep in r.completedSteps
            && (!Contains(text, "job failed") && !Contains(text, "Job was cancelled") ==> r.currentStep == "Completed")
  {
    CreatedLineBeforeCompletion(id, url, bot, rp);
    CreatedLineObservedBeforeLast(prior, PipelineLog(id, url, bot, rp));
    LogAnalysisProperties.FinalRowObserved(TextOf(prior + PipelineLog(id, url, bot, rp)));
  }

  /** Logging only appends whole lines, so no label the analyzer has already
      reported as completed disappears as the pipeline (or anything else)
      logs more. */
  lemma LoggingKeepsCompletedSteps(prior: seq<Entry>, more: seq<Entry>)
    ensures forall name :: name in LogAnalysis.Summarize(TextOf(prior)).completedSteps ==>
              name in LogAnalysis.Summarize(TextOf(prior + more)).completedSteps
  {
    TextOfAppend(prior, more);
    LogAnalysisProperties.AppendKeepsCompletedSteps(TextOf(prior), TextOf(more));
  }

  /** The pipeline's first log entry, once paid, is "Preparing repository". */
  lemma PreparingLineOpensTheLog(id: nat, url: string, bot: string, rp: PipelineReplies)
    requires Paid(rp)
    ensures PipelineLog(id, url, bot, rp) != [] && PipelineLog(id, url, bot, rp)[0] == Entry(Info, "Preparing repository")
  {
    assert PipelineLog(id, url, bot, rp) == WorkLog(id, url, bot, rp);
  }

  // ---------------------------------------------------------------------------
  // The completion line as the source spells it, and as the analyzer reads it

  /** The line the route writes lacks the marker's last character. */
  lemma AsWrittenLineLacksMarkerEnd()
    ensures var m := LogAnalysis.CompletedMarker;
            m != [] && m[|m| - 1] !in LineOf(Entry(Info, CompletionMessage))
  {
    var m := LogAnalysis.CompletedMarker;
    var c := '\U{1F389}';
    assert m[|m| - 1] == c;
    assert c !in "[" + LevelName(Info) + "] ";
    assert c !in CompletionMessage;
    assert c !in "\n";
  }

  /** As written, a successful publication leaves the analyzer blind to the
      completion line: when the log did not already carry the marker it
      still does not, and a log that mentions "job failed" reads as failed. */
  lemma AsWrittenSuccessUnseen(prior: seq<Entry>, pub: Publish.Publication)
    requires pub.result.Ok?
    requires !Contains(TextOf(prior + pub.log), LogAnalysis.CompletedMarker)
    ensures !Contains(TextOf(prior + PublishStageLog(pub)), LogAnalysis.CompletedMarker)
    ensures Contains(TextOf(prior + pub.log), "job failed") ==>
              LogAnalysis.Summarize(TextOf(prior + PublishStageLog(pub))).currentStep == "Failed"
  {
    var line := Entry(Info, CompletionMessage);
    assert prior + PublishStageLog(pub) == (prior + pub.log) + [line];
    AsWrittenLineLacksMarkerEnd();
    LineWithoutMarkerEnd(prior + pub.log, line);
  }

  /** The completion line spelled as the analyzer expects it. */
  const CorrectedCompletion := LogAnalysis.CompletedMarker

  /** The publication stage's log with the corrected completion line. */
  function CorrectedPublishStageLog(pub: Publish.Publication): seq<Entry> {
    pub.log + (if pub.result.Ok? then [Entry(Info, CorrectedCompletion)] else [])
  }

  /** A log whose last line is the corrected completion line holds the
      completion marker the analyzer looks for. */
  lemma CorrectedLineShowsMarker(log: seq<Entry>)
    requires log != [] && log[|log| - 1] == Entry(Info, CorrectedCompletion)
    ensures Contains(TextOf(log), LogAnalysis.CompletedMarker)
  {
    ContainsSelf(LogAnalysis.CompletedMarker);
    LastEntryShows(log, LogAnalysis.CompletedMarker);
  }

  /** With the corrected line, a successful publication makes the log read
      as completed whatever it held before, "job failed" included. */
  lemma CorrectedSuccessSeen(prior: seq<Entry>, pub: Publish.Publication)
    requires pub.result.Ok?
    ensures var r := LogAnalysis.Summarize(TextOf(prior + CorrectedPublishStageLog(pub)));
            r.currentStep == "Completed" && LogAnalysis.FinalStep in r.completedSteps
  {
    var log := prior + CorrectedPublishStageLog(pub);
    LastOfAppend(prior, CorrectedPublishStageLog(pub));
    CorrectedLineShowsMarker(log);
    LogAnalysisProperties.MarkerOverrides(TextOf(log));
  }
}
