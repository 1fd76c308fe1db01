/** The analyzer's worked example: a log that has got as far as reading the
    issue URL reports the first two rows as done and the fork as under way. */
module LogAnalysisExample {
  import opened JsText
  import opened LogAnalysis
  import opened LogAnalysisProperties

  const FirstLine := "Preparing repository"
  const SecondLine := "extracted repository from issue URL"
  /** "Preparing repository\nextracted repository from issue URL\n". */
  const ExampleLog := FirstLine + "\n" + (SecondLine + "\n")

  const Prepared := Observation("Checking out repository", 1)
  const Analyzed := Observation("Analyzing issue URL", 2)

  /** What the example reports: the first two labels, in table order, the
      next row's label as the current step, and no cost. */
  lemma ExampleSummary()
    ensures Summarize(ExampleLog).completedSteps == ["Checking out repository", "Analyzing issue URL"]
    ensures Summarize(ExampleLog).currentStep == "Forking repository"
    ensures Summarize(ExampleLog).totalCost == 0
  {
    ExampleUnique();
    ExampleUnmarked();
    ExampleCompleted();
    ExampleCurrent();
    ExampleCost();
  }

  lemma ExampleCompleted()
    ensures CompletedOf(ExampleLog, [Prepared, Analyzed], LogMarkers) == ["Checking out repository", "Analyzing issue URL"]
  {
    ExampleUnmarked();
    assert Labels([Prepared, Analyzed]) == [Prepared.step, Analyzed.step];
  }

  lemma ExampleCurrent()
    ensures CurrentStepOf(ExampleLog, [Prepared, Analyzed], LogMarkers) == "Forking repository"
  {
    ExampleUnmarked();
    FindIndexAboveRank(2);
    assert Rules[2].step == "Forking repository";
  }

  lemma ExampleCost()
    ensures SatsCost(ExampleLog) == 0
  {
    ExampleHasNoDigits();
    TaggedSumSkip(ExampleLog, [], SatsFollows);
    assert ExampleLog + [] == ExampleLog;
  }

  /** After the sort and the de-duplication both observations remain, in order. */
  lemma ExampleUnique()
    ensures UniqueSteps(Observations(Split(ExampleLog, '\n'))) == [Prepared, Analyzed]
  {
    ExampleObservations();
    TwoInOrder(Prepared, Analyzed);
  }

  /** The scan pushes one observation for each of the two written lines and
      none for the empty text after the last line end. */
  lemma ExampleObservations()
    ensures Observations(Split(ExampleLog, '\n')) == [Prepared, Analyzed]
  {
    ExampleLines();
    FirstLineObserved();
    SecondLineObserved();
    EmptyLineObserved();
    ObservationsOfThree(FirstLine, SecondLine, []);
  }

  /** The scan of three lines, one line at a time. */
  lemma ObservationsOfThree(a: string, b: string, c: string)
    ensures Observations([a, b, c]) == LineObservations(a) + LineObservations(b) + LineObservations(c)
  {
    ObservationsOfTwo(a, b);
    ObservationsSnoc([a, b], c);
    assert [a, b] + [c] == [a, b, c];
  }

  lemma ObservationsOfTwo(a: string, b: string)
    ensures Observations([a, b]) == LineObservations(a) + LineObservations(b)
  {
    var empty: seq<string> := [];
    ObservationsSnoc(empty, a);
    assert empty + [a] == [a];
    ObservationsSnoc([a], b);
    assert [a] + [b] == [a, b];
  }

  lemma EmptyLineObserved()
    ensures LineObservations([]) == []
  {
    EmptyLineMatchesNothing();
  }

  /** `split("\n")` yields the two lines and the empty text after the last
      line end. */
  lemma ExampleLines()
    ensures Split(ExampleLog, '\n') == [FirstLine, SecondLine, []]
  {
    NoLineEnds();
    TwoLines(FirstLine, SecondLine);
  }

  lemma NoLineEnds()
    ensures '\n' !in FirstLine && '\n' !in SecondLine
  {
    FirstLineAlphabet();
    SecondLineAlphabet();
  }

  /** Two lines, each ended by a line end, split into the lines and the
      empty text after the last line end. */
  lemma TwoLines(a: string, b: string)
    requires '\n' !in a && '\n' !in b
    ensures Split(a + "\n" + (b + "\n"), '\n') == [a, b, []]
  {
    assert b + "\n" == b + ['\n'] + [];
    SplitLastTwo(a, '\n', b, []);
    SplitWithoutSeparator(a, '\n');
  }

  lemma FirstLineObserved()
    ensures LineObservations(FirstLine) == [Prepared]
  {
    assert Rules[0].pattern == [FirstLine];
    FragmentMatches(FirstLine);
  }

  /** The second line lacks the first row's "g", so it counts for the second row. */
  lemma SecondLineObserved()
    ensures LineObservations(SecondLine) == [Analyzed]
  {
    SecondLineAlphabet();
    FirstFragmentLetters();
    MissingCharNoMatch(SecondLine, Rules[0].pattern, 8);
    assert Rules[1].pattern == [SecondLine];
    FragmentMatches(SecondLine);
    assert FirstMatchFrom(SecondLine, 0) == FirstMatchFrom(SecondLine, 1);
  }

  /** A line that is its own one-fragment pattern matches it. */
  lemma FragmentMatches(p: string)
    ensures Search(p, [p])
  {
    assert StartsWithCI(p, p) && p[0..] == p;
    SearchSingle(p, p);
  }

  /** None of the three markers occurs: none starts with a character of the log. */
  lemma ExampleUnmarked()
    ensures Unmarked(ExampleLog, LogMarkers)
  {
    ExampleAlphabet();
    FirstCharAbsent(ExampleLog, CompletedMarker);
    FirstCharAbsent(ExampleLog, "job failed");
    FirstCharAbsent(ExampleLog, "Job was cancelled");
  }

  lemma ExampleHasNoDigits()
    ensures NoDigits(ExampleLog)
  {
    ExampleAlphabet();
  }

  /** A text none of whose characters is `p`'s first does not contain `p`. */
  lemma FirstCharAbsent(s: string, p: string)
    requires p != [] && forall i :: 0 <= i < |s| ==> s[i] != p[0]
    ensures !Contains(s, p)
  {
    forall i | 0 <= i <= |s| ensures !OccursAt(s, p, i) {
      if i < |s| && |p| <= |s| - i {
        assert s[i..][..|p|][0] == s[i];
      }
    }
  }

  /** Two observations of distinct labels, in priority order, survive the
      sort and the de-duplication as they are. */
  lemma TwoInOrder(o1: Observation, o2: Observation)
    requires o1.priority < o2.priority && o1.step != o2.step
    ensures UniqueSteps([o1, o2]) == [o1, o2]
  {
    SortTwo(o1, o2);
    DedupeTwo(o1, o2);
  }

  lemma SortTwo(o1: Observation, o2: Observation)
    requires o1.priority < o2.priority
    ensures SortByPriority([o1, o2]) == [o1, o2]
  {
    assert [o1, o2][..1] == [o1] && [o1][..0] == [];
    assert SortByPriority([o1]) == [o1];
    assert Insert(o2, [o1]) == [o1, o2];
  }

  lemma DedupeTwo(o1: Observation, o2: Observation)
    requires o1.priority < o2.priority && o1.step != o2.step
    ensures Dedupe([o1, o2]) == [o1, o2]
  {
    assert [o1, o2][1..] == [o2] && [o2][1..] == [];
    assert [] + [o1] == [o1] && [o1] + [o2] == [o1, o2];
    assert !HasStep([], o1.step);
    assert !HasStep([o1], o2.step);
    assert DedupeInto([o1, o2], []) == [o1, o2];
    assert DedupeInto([o1], [o2]) == [o1, o2];
  }

  // ---------------------------------------------------------------------------
  // The characters the example is written with

  predicate InFirstLine(ch: char) {
    ch == ' ' || ch == 'P' || 'a' <= ch <= 'i' || 'n' <= ch <= 't' || ch == 'y'
  }

  /** No "g" or "j" in either case, no digit and no line end. */
  predicate InSecondLine(ch: char) {
    ch == ' ' || 'a' <= ch <= 'f' || ch == 'i' || ch == 'm' || 'o' <= ch <= 'y'
    || ch == 'L' || ch == 'R' || ch == 'U'
  }

  lemma FirstLineAlphabet()
    ensures forall i :: 0 <= i < |FirstLine| ==> InFirstLine(FirstLine[i])
  {
  }

  lemma SecondLineAlphabet()
    ensures forall i :: 0 <= i < |SecondLine| ==> InSecondLine(SecondLine[i])
  {
  }

  lemma ExampleAlphabet()
    ensures forall i :: 0 <= i < |ExampleLog| ==>
              ExampleLog[i] == '\n' || InFirstLine(ExampleLog[i]) || InSecondLine(ExampleLog[i])
  {
    FirstLineAlphabet();
    SecondLineAlphabet();
    var a, b := FirstLine + "\n", SecondLine + "\n";
    assert forall i :: 0 <= i < |ExampleLog| ==> ExampleLog[i] == if i < |a| then a[i] else b[i - |a|];
  }
}
