/** Properties of the job-log analyzer's summary: the order of the completed
    steps, the step inference, the marker overrides and growth of the log. */
module LogAnalysisProperties {
  import opened JsText
  import opened LogAnalysis

  // ---------------------------------------------------------------------------
  // Properties of the summary

  /** An observation the table can produce: row k's label with priority k + 1. */
  ghost predicate FromTable(o: Observation) {
    1 <= o.priority <= |Rules| && o == ObservationOf(o.priority - 1)
  }

  /** Each priority is the rank of its label in the table: what `FromTable`
      implies, stated one observation at a time. */
  ghost predicate Ranked(xs: seq<Observation>) {
    forall o :: o in xs ==> 1 <= o.priority && RankOf(o.step) == o.priority
  }

  lemma {:induction false} ObservationsFromTable(lines: seq<string>)
    ensures forall o :: o in Observations(lines) ==> FromTable(o)
    ensures |Observations(lines)| <= |lines|
    decreases |lines|
  {
    RulePriorities();
    if lines != [] {
      ObservationsFromTable(lines[..|lines| - 1]);
    }
  }

  lemma ObservationsRanked(lines: seq<string>)
    ensures Ranked(Observations(lines))
  {
    var found := Observations(lines);
    ObservationsFromTable(lines);
    forall o | o in found ensures 1 <= o.priority && RankOf(o.step) == o.priority {
      RankOfObservation(o);
    }
  }

  /** No row of the table matches the line. */
  ghost predicate NoRowMatches(line: string) {
    forall k :: 0 <= k < |Rules| ==> !RuleMatches(k, line)
  }

  /** The scan finds nothing exactly when no line matches any row. */
  lemma {:induction false} ObservationsEmpty(lines: seq<string>)
    ensures Observations(lines) == [] <==> forall line :: line in lines ==> NoRowMatches(line)
    decreases |lines|
  {
    if lines != [] {
      var init := lines[..|lines| - 1];
      var last := lines[|lines| - 1];
      ObservationsEmpty(init);
      assert lines == init + [last];
      assert LineObservations(last) == [] <==> NoRowMatches(last);
    }
  }

  /** Sorted, one per label, each priority the rank of its label: priorities
      strictly increase. */
  lemma DedupedIncreasing(u: seq<Observation>, found: seq<Observation>)
    requires DedupedOf(u, found) && Ranked(found)
    ensures Ranked(u)
    ensures forall i, j :: 0 <= i < j < |u| ==> u[i].priority < u[j].priority
  {
    forall i, j | 0 <= i < j < |u| ensures u[i].priority < u[j].priority {
      assert u[i] in u && u[j] in u;
      assert u[i] in found && u[j] in found;
      assert u[i].step != u[j].step;
      assert u[i].priority <= u[j].priority;
    }
  }

  /** Each label of a table observation ranks at its priority. */
  lemma RankOfObservation(o: Observation)
    requires FromTable(o)
    ensures RankOf(o.step) == o.priority
  {
    RankOfRule(o.priority - 1);
  }

  /** Labels of table ranks listed in strictly increasing rank. */
  ghost predicate RankIncreasing(c: seq<string>) {
    (forall i :: 0 <= i < |c| ==> 1 <= RankOf(c[i]))
    && (forall i, j :: 0 <= i < j < |c| ==> RankOf(c[i]) < RankOf(c[j]))
  }

  /** The deduplicated labels are listed in strictly increasing rank. */
  lemma LabelsIncreasing(u: seq<Observation>, found: seq<Observation>)
    requires DedupedOf(u, found) && Ranked(found)
    ensures RankIncreasing(Labels(u))
  {
    DedupedIncreasing(u, found);
    var labels := Labels(u);
    forall i | 0 <= i < |u| ensures RankOf(labels[i]) == u[i].priority {
      assert u[i] in u;
    }
  }

  /** The final label ranks above every other label of the table. */
  lemma AppendFinalIncreasing(c: seq<string>)
    requires RankIncreasing(c) && FinalStep !in c
    ensures RankIncreasing(c + [FinalStep])
  {
    FinalStepRank();
    AppendTopIncreasing(c, FinalStep);
  }

  lemma AppendTopIncreasing(c: seq<string>, top: string)
    requires RankIncreasing(c) && top !in c
    requires RankOf(top) == 17 && forall x :: RankOf(x) == 17 ==> x == top
    ensures RankIncreasing(c + [top])
  {
    var d := c + [top];
    forall i | 0 <= i < |d| ensures 1 <= RankOf(d[i]) && (i < |c| ==> d[i] == c[i] && RankOf(c[i]) < 17) {
      if i < |c| {
        assert c[i] in c;
      }
    }
    forall i, j | 0 <= i < j < |d| ensures RankOf(d[i]) < RankOf(d[j]) {
      if j < |c| {
        assert RankOf(c[i]) < RankOf(c[j]);
      }
    }
  }

  lemma CompletedOfIncreasing(logs: string, u: seq<Observation>, found: seq<Observation>, m: Markers)
    requires DedupedOf(u, found) && Ranked(found)
    ensures RankIncreasing(CompletedOf(logs, u, m))
  {
    LabelsIncreasing(u, found);
    if Contains(logs, m.completed) && FinalStep !in Labels(u) {
      AppendFinalIncreasing(Labels(u));
    }
  }

  /** `completedSteps` holds table labels only, in strictly increasing priority
      (so without duplicates), also after "Pull request created" is appended. */
  lemma CompletedStepsOrdered(logs: string)
    ensures var c := Summarize(logs).completedSteps;
            (forall i :: 0 <= i < |c| ==> 1 <= RankOf(c[i]))
            && (forall i, j :: 0 <= i < j < |c| ==> RankOf(c[i]) < RankOf(c[j]) && c[i] != c[j])
  {
    var lines := Split(logs, '\n');
    var found := Observations(lines);
    ObservationsRanked(lines);
    UniqueStepsDeduped(found);
    CompletedOfIncreasing(logs, UniqueSteps(found), found, LogMarkers);
  }

  /** The largest priority among the observations. */
  function MaxPriority(found: seq<Observation>): (m: int)
    requires found != []
    ensures exists i :: 0 <= i < |found| && found[i].priority == m
    ensures forall i :: 0 <= i < |found| ==> found[i].priority <= m
  {
    if |found| == 1 then found[0].priority
    else
      var m := MaxPriority(found[1..]);
      assert forall i :: 1 <= i < |found| ==> found[i] == found[1..][i - 1];
      if found[0].priority >= m then found[0].priority else m
  }

  /** Observations with the same label carry the same priority. */
  ghost predicate LabelFixesPriority(found: seq<Observation>) {
    forall a, b :: a in found && b in found && a.step == b.step ==> a.priority == b.priority
  }

  lemma RankedFixesPriority(found: seq<Observation>)
    requires Ranked(found)
    ensures LabelFixesPriority(found)
  {
  }

  /** The last deduplicated step carries the highest observed priority. */
  lemma LastIsHighest(u: seq<Observation>, found: seq<Observation>)
    requires found != []
    requires DedupedOf(u, found) && Ranked(found)
    ensures u != [] && u[|u| - 1].priority == MaxPriority(found)
  {
    RankedFixesPriority(found);
    LastIsHighestOf(u, found);
  }

  lemma LastIsHighestOf(u: seq<Observation>, found: seq<Observation>)
    requires found != []
    requires DedupedOf(u, found) && LabelFixesPriority(found)
    ensures u != [] && u[|u| - 1].priority == MaxPriority(found)
  {
    var m := MaxPriority(found);
    var k :| 0 <= k < |found| && found[k].priority == m;
    var top := found[k];
    assert top in found;
    assert HasStep(u, top.step);
    var i :| 0 <= i < |u| && u[i].step == top.step;
    var last := u[|u| - 1];
    assert u[i] in u && last in u;
    assert u[i].priority <= last.priority;
  }

  /** The first row above priority p (for p below 17) is row p. */
  lemma FindIndexAboveRank(p: int)
    requires 0 <= p < |Rules|
    ensures FindIndexAbove(p) == p
  {
    RulePriorities();
    assert Rules[p].priority == p + 1;
  }

  /** The step inferred from the deduplicated observations: the row after the
      last one seen, "Completed" after the final row, "Initializing" before any. */
  lemma InferredStepOf(u: seq<Observation>, found: seq<Observation>)
    requires DedupedOf(u, found) && Ranked(found)
    ensures u == [] <==> found == []
    ensures u == [] ==> InferredStep(u) == "Initializing"
    ensures u != [] ==> 1 <= u[|u| - 1].priority <= 17
    ensures u != [] && u[|u| - 1].priority < 17 ==> InferredStep(u) == Rules[u[|u| - 1].priority].step
    ensures u != [] && u[|u| - 1].priority == 17 ==> InferredStep(u) == "Completed"
  {
    if found != [] {
      assert found[0] in found;
      assert HasStep(u, found[0].step);
    }
    if u != [] {
      var last := u[|u| - 1];
      assert last in u;
      assert last in found;
      if last.priority < 17 {
        FindIndexAboveRank(last.priority);
      }
    }
  }

  /** No marker of `m` occurs in `logs`. */
  predicate Unmarked(logs: string, m: Markers) {
    !Contains(logs, m.completed) && !Contains(logs, m.failed) && !Contains(logs, m.cancelled)
  }

  lemma NextStepOf(logs: string, u: seq<Observation>, found: seq<Observation>, m: Markers)
    requires Unmarked(logs, m) && found != []
    requires DedupedOf(u, found) && Ranked(found)
    ensures var p := MaxPriority(found);
            1 <= p <= 17
            && (p < 17 ==> CurrentStepOf(logs, u, m) == Rules[p].step)
            && (p == 17 ==> CurrentStepOf(logs, u, m) == "Completed")
  {
    LastIsHighest(u, found);
    InferredStepOf(u, found);
  }

  /** Without a marker, the current step is the label of the row after the
      highest one observed, or "Completed" after the last row. */
  lemma NextStepInference(logs: string)
    requires Unmarked(logs, LogMarkers)
    requires Observations(Split(logs, '\n')) != []
    ensures var p := MaxPriority(Observations(Split(logs, '\n')));
            1 <= p <= 17
            && (p < 17 ==> Summarize(logs).currentStep == Rules[p].step)
            && (p == 17 ==> Summarize(logs).currentStep == "Completed")
  {
    var lines := Split(logs, '\n');
    var found := Observations(lines);
    ObservationsRanked(lines);
    UniqueStepsDeduped(found);
    NextStepOf(logs, UniqueSteps(found), found, LogMarkers);
  }

  /** Once a line of the last row is observed, "Pull request created" counts
      as completed, and unless a failure or cancellation marker occurs the job
      reads as completed, with or without the completion marker. */
  lemma FinalRowObserved(logs: string)
    requires Observation(FinalStep, 17) in Observations(Split(logs, '\n'))
    ensures FinalStep in Summarize(logs).completedSteps
    ensures !Contains(logs, "job failed") && !Contains(logs, "Job was cancelled") ==>
              Summarize(logs).currentStep == "Completed"
  {
    var found := Observations(Split(logs, '\n'));
    UniqueLabels(found, FinalStep);
    if Unmarked(logs, LogMarkers) {
      NextStepInference(logs);
      var i :| 0 <= i < |found| && found[i] == Observation(FinalStep, 17);
    }
  }

  lemma NotFinalizingOf(logs: string, u: seq<Observation>, found: seq<Observation>, m: Markers)
    requires DedupedOf(u, found) && Ranked(found)
    ensures CurrentStepOf(logs, u, m) != "Finalizing"
  {
    InferredStepOf(u, found);
    LabelsAreNotStatusWords();
    assert InferredStep(u) != "Finalizing";
  }

  /** The "Finalizing" branch is dead: every priority below 17 has a row above it. */
  lemma NeverFinalizing(logs: string)
    ensures Summarize(logs).currentStep != "Finalizing"
  {
    var lines := Split(logs, '\n');
    var found := Observations(lines);
    ObservationsRanked(lines);
    UniqueStepsDeduped(found);
    NotFinalizingOf(logs, UniqueSteps(found), found, LogMarkers);
  }

  lemma InitializingOf(logs: string, u: seq<Observation>, found: seq<Observation>, m: Markers)
    requires DedupedOf(u, found) && Ranked(found)
    ensures CurrentStepOf(logs, u, m) == "Initializing" <==> Unmarked(logs, m) && found == []
  {
    InferredStepOf(u, found);
    LabelsAreNotStatusWords();
  }

  /** "Initializing" is reported exactly when there is no marker and no line
      matches any row. */
  lemma InitializingIff(logs: string)
    ensures Summarize(logs).currentStep == "Initializing" <==>
            (Unmarked(logs, LogMarkers)
             && forall line :: line in Split(logs, '\n') ==> NoRowMatches(line))
  {
    var lines := Split(logs, '\n');
    var found := Observations(lines);
    ObservationsEmpty(lines);
    ObservationsRanked(lines);
    UniqueStepsDeduped(found);
    InitializingOf(logs, UniqueSteps(found), found, LogMarkers);
  }

  /** The marker overrides, in the order the source checks them: "Job completed! 🎉"
      forces "Completed" and the final label, else "job failed" forces "Failed",
      else "Job was cancelled" forces "Cancelled". */
  lemma MarkerOverrides(logs: string)
    ensures var r := Summarize(logs);
            (Contains(logs, CompletedMarker) ==> r.currentStep == "Completed" && FinalStep in r.completedSteps)
            && (!Contains(logs, CompletedMarker) && Contains(logs, "job failed") ==> r.currentStep == "Failed")
            && ((!Contains(logs, CompletedMarker) && !Contains(logs, "job failed")
                 && Contains(logs, "Job was cancelled")) ==> r.currentStep == "Cancelled")
  {
  }

  // ---------------------------------------------------------------------------
  // Appending lines

  /** The labels an observation list yields after sort and dedupe are exactly
      the labels it holds. */
  lemma UniqueLabels(found: seq<Observation>, name: string)
    ensures name in Labels(UniqueSteps(found)) <==> exists o :: o in found && o.step == name
  {
    var u := UniqueSteps(found);
    var ls := Labels(u);
    if name in ls {
      var i :| 0 <= i < |ls| && ls[i] == name;
      assert u[i] in found;
    }
    if exists o :: o in found && o.step == name {
      var o :| o in found && o.step == name;
      assert HasStep(u, o.step);
      var i :| 0 <= i < |u| && u[i].step == o.step;
      assert ls[i] == name;
    }
  }

  /** A newline-terminated log splits into its lines and a trailing empty
      line, which contributes nothing. */
  lemma AppendObservations(logs: string, more: string)
    requires logs == [] || logs[|logs| - 1] == '\n'
    ensures Observations(Split(logs + more, '\n'))
            == Observations(Split(logs, '\n')) + Observations(Split(more, '\n'))
  {
    var empty: string := [];
    EmptyLineMatchesNothing();
    assert Observations([empty]) == [] by {
      assert [empty][..0] == [];
    }
    if logs == [] {
      assert logs + more == more;
      assert Split(logs, '\n') == [empty];
    } else {
      var a := logs[..|logs| - 1];
      var lines := Split(a, '\n');
      assert logs == a + ['\n'] + empty;
      assert logs + more == a + ['\n'] + more;
      SplitAround(a, '\n', more);
      SplitAround(a, '\n', empty);
      assert Split(logs, '\n') == lines + [empty];
      assert Split(logs + more, '\n') == lines + Split(more, '\n');
      ObservationsAppend(lines, Split(more, '\n'));
      ObservationsAppend(lines, [empty]);
      assert Observations(Split(logs, '\n')) == Observations(lines);
    }
  }

  /** More observations and an extended log keep every completed label. */
  lemma CompletedMonotone(logs: string, before: seq<Observation>, logs': string, after: seq<Observation>, m: Markers)
    requires forall o :: o in before ==> o in after
    requires Contains(logs, m.completed) ==> Contains(logs', m.completed)
    ensures forall name :: name in CompletedOf(logs, UniqueSteps(before), m) ==>
              name in CompletedOf(logs', UniqueSteps(after), m)
  {
    forall name | name in CompletedOf(logs, UniqueSteps(before), m)
      ensures name in CompletedOf(logs', UniqueSteps(after), m)
    {
      if name in Labels(UniqueSteps(before)) {
        UniqueLabels(before, name);
        var o :| o in before && o.step == name;
        assert o in after;
        UniqueLabels(after, name);
      }
    }
  }

  /** Appending whole lines to a newline-terminated log never removes a label
      from `completedSteps`. */
  lemma AppendKeepsCompletedSteps(logs: string, more: string)
    requires logs == [] || logs[|logs| - 1] == '\n'
    ensures forall name :: name in Summarize(logs).completedSteps ==>
              name in Summarize(logs + more).completedSteps
  {
    AppendObservations(logs, more);
    if Contains(logs, CompletedMarker) {
      ContainsExtends(logs, CompletedMarker, more);
    }
    CompletedMonotone(logs, Observations(Split(logs, '\n')), logs + more, Observations(Split(logs + more, '\n')), LogMarkers);
  }
}
