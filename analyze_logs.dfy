/** The job-log progress analyzer: from the accumulated text of a job's log it
    derives the steps already completed, the step presumably under way, and the
    total of the satoshi amounts the log mentions. It carries no state between
    calls. */
module LogAnalysis {
  import opened JsText

  /** One row of the step table. `pattern` is the regular expression of the
      row written as its literal fragments: `/a.*b/i` is ["a", "b"]. */
  datatype Rule = Rule(pattern: seq<string>, step: string, priority: int)

  datatype Observation = Observation(step: string, priority: int)

  datatype JobSummary = JobSummary(currentStep: string, completedSteps: seq<string>, totalCost: nat)

  const Rules: seq<Rule> := [
    Rule(["Preparing repository"], "Checking out repository", 1),
    Rule(["extracted repository from issue URL"], "Analyzing issue URL", 2),
    Rule(["forking repository"], "Forking repository", 3),
    Rule(["cloning forked repository"], "Cloning repository", 4),
    Rule(["Launching agent"], "Looking at the code", 5),
    Rule(["Spawning goose process"], "Understanding the issue", 6),
    Rule(["starting session", "provider:"], "Starting code analysis", 7),
    Rule(["I'll help you", "follow", "steps"], "Planning solution", 8),
    Rule(["checkout", "new branch"], "Creating development branch", 9),
    Rule(["git checkout -b"], "Setting up development environment", 10),
    Rule(["Step 2", "address", "issue"], "Coding solution", 11),
    Rule(["Step 3", "commit", "changes"], "Reviewing and committing changes", 12),
    Rule(["git commit"], "Committing changes", 13),
    Rule(["getting branch name"], "Preparing pull request", 14),
    Rule(["pushing branch"], "Pushing changes", 15),
    Rule(["creating pull request"], "Opening pull request", 16),
    Rule(["successfully created pull request"], "Pull request created", 17)
  ]

  const FinalStep := "Pull request created"
  /** The three strings whose presence anywhere in the log overrides the
      inferred step. */
  datatype Markers = Markers(completed: string, failed: string, cancelled: string)

  const CompletedMarker := "Job completed! \U{1F389}"
  const LogMarkers := Markers(CompletedMarker, "job failed", "Job was cancelled")

  // ---------------------------------------------------------------------------
  // Patterns

  /** The remaining fragments occur in order in `t`, the first of them after a
      stretch free of line terminators (what `.*` may span). */
  predicate Follows(t: string, frags: seq<string>)
    decreases |frags|, |t|
  {
    if frags == [] then true
    else (StartsWithCI(t, frags[0]) && Follows(t[|frags[0]|..], frags[1..]))
         || (t != [] && !IsLineTerminator(t[0]) && Follows(t[1..], frags))
  }

  /** `pattern.test(line)` for an unanchored, case-insensitive pattern. */
  predicate Search(s: string, frags: seq<string>)
    decreases |s|
  {
    if frags == [] then true
    else (StartsWithCI(s, frags[0]) && Follows(s[|frags[0]|..], frags[1..]))
         || (s != [] && Search(s[1..], frags))
  }

  /** A one-fragment pattern is a case-insensitive "contains". */
  lemma {:induction false} SearchSingle(s: string, f: string)
    ensures Search(s, [f]) <==> exists i :: 0 <= i <= |s| && StartsWithCI(s[i..], f)
    decreases |s|
  {
    assert [f][1..] == [];
    if s != [] {
      SearchSingle(s[1..], f);
      assert forall i :: 1 <= i <= |s| ==> s[i..] == s[1..][i - 1..];
      if Search(s[1..], [f]) {
        var i :| 0 <= i <= |s[1..]| && StartsWithCI(s[1..][i..], f);
        assert s[1..][i..] == s[i + 1..];
      }
    } else {
      assert s[0..] == s;
    }
    if StartsWithCI(s, f) {
      assert s[0..] == s;
    }
  }

  /** Text that already matches keeps matching when more text surrounds it
      (the pattern is unanchored). */
  lemma {:induction false} SearchInfix(a: string, s: string, b: string, frags: seq<string>)
    requires Search(s, frags)
    ensures Search(a + s + b, frags)
    decreases |a|
  {
    if a == [] {
      SearchExtend(s, b, frags);
      assert a + s + b == s + b;
    } else {
      SearchInfix(a[1..], s, b, frags);
      assert (a + s + b)[1..] == a[1..] + s + b;
    }
  }

  lemma {:induction false} SearchExtend(s: string, b: string, frags: seq<string>)
    requires Search(s, frags)
    ensures Search(s + b, frags)
    decreases |s|
  {
    if frags != [] {
      if StartsWithCI(s, frags[0]) && Follows(s[|frags[0]|..], frags[1..]) {
        FollowsExtend(s[|frags[0]|..], b, frags[1..]);
        assert (s + b)[|frags[0]|..] == s[|frags[0]|..] + b;
      } else {
        SearchExtend(s[1..], b, frags);
        assert (s + b)[1..] == s[1..] + b;
      }
    }
  }

  lemma {:induction false} FollowsExtend(t: string, b: string, frags: seq<string>)
    requires Follows(t, frags)
    ensures Follows(t + b, frags)
    decreases |frags|, |t|
  {
    if frags != [] {
      if StartsWithCI(t, frags[0]) && Follows(t[|frags[0]|..], frags[1..]) {
        FollowsExtend(t[|frags[0]|..], b, frags[1..]);
        assert (t + b)[|frags[0]|..] == t[|frags[0]|..] + b;
      } else {
        FollowsExtend(t[1..], b, frags);
        assert (t + b)[1..] == t[1..] + b;
      }
    }
  }

  predicate RuleMatches(k: nat, line: string)
    requires k < |Rules|
  {
    Search(line, Rules[k].pattern)
  }

  /** The first row of the table, from row `k` on, whose pattern the line matches. */
  function FirstMatchFrom(line: string, k: nat): (r: Option<nat>)
    requires k <= |Rules|
    ensures r.Some? ==> k <= r.value < |Rules| && RuleMatches(r.value, line)
    ensures r.Some? ==> forall j :: k <= j < r.value ==> !RuleMatches(j, line)
    ensures r.None? <==> forall j :: k <= j < |Rules| ==> !RuleMatches(j, line)
    decreases |Rules| - k
  {
    if k == |Rules| then None
    else if RuleMatches(k, line) then Some(k)
    else FirstMatchFrom(line, k + 1)
  }

  /** A line yields the first matching row in table order, or nothing. */
  function FirstMatch(line: string): (r: Option<nat>)
    ensures r.Some? ==> r.value < |Rules| && RuleMatches(r.value, line)
    ensures r.Some? ==> forall j :: 0 <= j < r.value ==> !RuleMatches(j, line)
    ensures r.None? <==> forall j :: 0 <= j < |Rules| ==> !RuleMatches(j, line)
  {
    FirstMatchFrom(line, 0)
  }

  function ObservationOf(k: nat): Observation
    requires k < |Rules|
  {
    Observation(Rules[k].step, Rules[k].priority)
  }

  function LineObservations(line: string): seq<Observation> {
    match FirstMatch(line)
    case Some(k) => [ObservationOf(k)]
    case None => []
  }

  /** What the nested scan pushes: one observation per matching line, in order. */
  function Observations(lines: seq<string>): seq<Observation> {
    if lines == [] then []
    else Observations(lines[..|lines| - 1]) + LineObservations(lines[|lines| - 1])
  }

  lemma ObservationsSnoc(lines: seq<string>, line: string)
    ensures Observations(lines + [line]) == Observations(lines) + LineObservations(line)
  {
    SnocParts(lines, line);
  }

  /** The inductive step of `ObservationsAppend`: one more line at the end. */
  lemma ObservationsAppendStep(xs: seq<string>, init: seq<string>, last: string)
    requires Observations(xs + init) == Observations(xs) + Observations(init)
    ensures Observations(xs + (init + [last])) == Observations(xs) + Observations(init + [last])
  {
    ConcatAssoc(xs, init, [last]);
    ObservationsSnoc(xs + init, last);
    ObservationsSnoc(init, last);
    ConcatAssoc(Observations(xs), Observations(init), LineObservations(last));
  }

  lemma {:induction false} ObservationsAppend(xs: seq<string>, ys: seq<string>)
    ensures Observations(xs + ys) == Observations(xs) + Observations(ys)
    decreases |ys|
  {
    if ys == [] {
      assert xs + ys == xs;
    } else {
      var init, last := ys[..|ys| - 1], ys[|ys| - 1];
      ObservationsAppend(xs, init);
      ObservationsAppendStep(xs, init, last);
      InitLast(ys);
    }
  }

  /** A line lacking, in either case, some character of a pattern's first
      fragment cannot match the pattern. */
  lemma {:induction false} MissingCharNoMatch(s: string, frags: seq<string>, j: nat)
    requires frags != [] && j < |frags[0]|
    requires Lacks(s, frags[0][j])
    ensures !Search(s, frags)
    decreases |s|
  {
    if s != [] {
      assert forall k :: 0 <= k < |s[1..]| ==> s[1..][k] == s[k + 1];
      MissingCharNoMatch(s[1..], frags, j);
    }
  }

  /** The line has no character equal to `c` ignoring case. */
  predicate Lacks(line: string, c: char) {
    forall i :: 0 <= i < |line| ==> !CharEqCI(line[i], c)
  }

  /** Where a "g", "x", "h", "2" or "3" sits in each of the first sixteen
      rows' first fragments. */
  lemma FirstFragmentLetters()
    ensures |Rules| == 17 && forall k :: 0 <= k < 16 ==> Rules[k].pattern != []
    ensures 8 < |Rules[0].pattern[0]| && Rules[0].pattern[0][8] == 'g'
    ensures 1 < |Rules[1].pattern[0]| && Rules[1].pattern[0][1] == 'x'
    ensures 6 < |Rules[2].pattern[0]| && Rules[2].pattern[0][6] == 'g'
    ensures 6 < |Rules[3].pattern[0]| && Rules[3].pattern[0][6] == 'g'
    ensures 5 < |Rules[4].pattern[0]| && Rules[4].pattern[0][5] == 'h'
    ensures 7 < |Rules[5].pattern[0]| && Rules[5].pattern[0][7] == 'g'
    ensures 7 < |Rules[6].pattern[0]| && Rules[6].pattern[0][7] == 'g'
    ensures 5 < |Rules[7].pattern[0]| && Rules[7].pattern[0][5] == 'h'
    ensures 1 < |Rules[8].pattern[0]| && Rules[8].pattern[0][1] == 'h'
    ensures 0 < |Rules[9].pattern[0]| && Rules[9].pattern[0][0] == 'g'
    ensures 5 < |Rules[10].pattern[0]| && Rules[10].pattern[0][5] == '2'
    ensures 5 < |Rules[11].pattern[0]| && Rules[11].pattern[0][5] == '3'
    ensures 0 < |Rules[12].pattern[0]| && Rules[12].pattern[0][0] == 'g'
    ensures 0 < |Rules[13].pattern[0]| && Rules[13].pattern[0][0] == 'g'
    ensures 3 < |Rules[14].pattern[0]| && Rules[14].pattern[0][3] == 'h'
    ensures 7 < |Rules[15].pattern[0]| && Rules[15].pattern[0][7] == 'g'
  {
  }

  /** Each of the first sixteen rows' first fragments holds a "g", "x", "h",
      "2" or "3", so a line with none of them that matches the last row is
      observed as that row. */
  lemma OnlyFinalRow(line: string)
    requires Lacks(line, 'g') && Lacks(line, 'x') && Lacks(line, 'h') && Lacks(line, '2') && Lacks(line, '3')
    requires RuleMatches(16, line)
    ensures FirstMatch(line) == Some(16)
    ensures LineObservations(line) == [Observation(FinalStep, 17)]
  {
    FirstFragmentLetters();
    MissingCharNoMatch(line, Rules[0].pattern, 8);
    assert FirstMatchFrom(line, 0) == FirstMatchFrom(line, 1);
    MissingCharNoMatch(line, Rules[1].pattern, 1);
    assert FirstMatchFrom(line, 1) == FirstMatchFrom(line, 2);
    MissingCharNoMatch(line, Rules[2].pattern, 6);
    assert FirstMatchFrom(line, 2) == FirstMatchFrom(line, 3);
    MissingCharNoMatch(line, Rules[3].pattern, 6);
    assert FirstMatchFrom(line, 3) == FirstMatchFrom(line, 4);
    MissingCharNoMatch(line, Rules[4].pattern, 5);
    assert FirstMatchFrom(line, 4) == FirstMatchFrom(line, 5);
    MissingCharNoMatch(line, Rules[5].pattern, 7);
    assert FirstMatchFrom(line, 5) == FirstMatchFrom(line, 6);
    MissingCharNoMatch(line, Rules[6].pattern, 7);
    assert FirstMatchFrom(line, 6) == FirstMatchFrom(line, 7);
    MissingCharNoMatch(line, Rules[7].pattern, 5);
    assert FirstMatchFrom(line, 7) == FirstMatchFrom(line, 8);
    MissingCharNoMatch(line, Rules[8].pattern, 1);
    assert FirstMatchFrom(line, 8) == FirstMatchFrom(line, 9);
    MissingCharNoMatch(line, Rules[9].pattern, 0);
    assert FirstMatchFrom(line, 9) == FirstMatchFrom(line, 10);
    MissingCharNoMatch(line, Rules[10].pattern, 5);
    assert FirstMatchFrom(line, 10) == FirstMatchFrom(line, 11);
    MissingCharNoMatch(line, Rules[11].pattern, 5);
    assert FirstMatchFrom(line, 11) == FirstMatchFrom(line, 12);
    MissingCharNoMatch(line, Rules[12].pattern, 0);
    assert FirstMatchFrom(line, 12) == FirstMatchFrom(line, 13);
    MissingCharNoMatch(line, Rules[13].pattern, 0);
    assert FirstMatchFrom(line, 13) == FirstMatchFrom(line, 14);
    MissingCharNoMatch(line, Rules[14].pattern, 3);
    assert FirstMatchFrom(line, 14) == FirstMatchFrom(line, 15);
    MissingCharNoMatch(line, Rules[15].pattern, 7);
    assert FirstMatchFrom(line, 15) == FirstMatchFrom(line, 16);
  }

  /** A character that is not an upper-case letter equals, ignoring case,
      only itself and its upper-case form. */
  lemma MissingInEitherCase(s: string, c: char)
    requires !('A' <= c <= 'Z') && c !in s && AsciiUpper(c) !in s
    ensures Lacks(s, c)
  {
  }

  // ---------------------------------------------------------------------------
  // Facts about the table

  /** Row k carries priority k + 1, so priorities strictly increase. */
  lemma RulePriorities()
    ensures forall k :: 0 <= k < |Rules| ==> Rules[k].priority == k + 1
  {
  }

  lemma RuleLabelsDistinct()
    ensures forall i, j :: 0 <= i < j < |Rules| ==> Rules[i].step != Rules[j].step
  {
  }

  lemma RulePatternsNonEmpty()
    ensures forall k :: 0 <= k < |Rules| ==> Rules[k].pattern != [] && Rules[k].pattern[0] != []
  {
  }

  /** An empty line matches no pattern. */
  lemma EmptyLineMatchesNothing()
    ensures FirstMatch([]).None?
  {
    RulePatternsNonEmpty();
  }

  /** No row label is one of the words the analyzer reports on its own. */
  lemma LabelsAreNotStatusWords()
    ensures forall k :: 0 <= k < |Rules| ==>
              Rules[k].step != "Initializing" && Rules[k].step != "Finalizing"
  {
  }

  /** The priority a name has in the table, 0 for a name not in it. */
  function RankOf(name: string): (r: nat)
    ensures r <= |Rules|
    ensures 1 <= r ==> Rules[r - 1].step == name
  {
    RankFrom(name, 0)
  }

  function RankFrom(name: string, k: nat): (r: nat)
    requires k <= |Rules|
    ensures r == 0 || (k < r <= |Rules| && Rules[r - 1].step == name)
    ensures r == 0 ==> forall j :: k <= j < |Rules| ==> Rules[j].step != name
    decreases |Rules| - k
  {
    if k == |Rules| then 0
    else if Rules[k].step == name then k + 1
    else RankFrom(name, k + 1)
  }

  lemma RankOfRule(k: nat)
    requires k < |Rules|
    ensures RankOf(Rules[k].step) == k + 1
  {
    RuleLabelsDistinct();
  }

  /** "Pull request created" is the last row, ranked 17. */
  lemma FinalStepRank()
    ensures RankOf(FinalStep) == |Rules| == 17
    ensures forall name :: RankOf(name) == 17 ==> name == FinalStep
  {
    RankOfRule(16);
    assert Rules[16].step == FinalStep;
  }

  /** `stepPatterns.findIndex(p => p.priority > bound)`. */
  function FindIndexAbove(bound: int): (r: int)
    ensures -1 <= r < |Rules|
    ensures r != -1 ==> Rules[r].priority > bound
    ensures r != -1 ==> forall j :: 0 <= j < r ==> Rules[j].priority <= bound
    ensures r == -1 <==> forall j :: 0 <= j < |Rules| ==> Rules[j].priority <= bound
  {
    FindIndexAboveFrom(bound, 0)
  }

  function FindIndexAboveFrom(bound: int, k: nat): (r: int)
    requires k <= |Rules|
    ensures r == -1 || k <= r < |Rules|
    ensures r != -1 ==> Rules[r].priority > bound
    ensures r != -1 ==> forall j :: k <= j < r ==> Rules[j].priority <= bound
    ensures r == -1 <==> forall j :: k <= j < |Rules| ==> Rules[j].priority <= bound
    decreases |Rules| - k
  {
    if k == |Rules| then -1
    else if Rules[k].priority > bound then k
    else FindIndexAboveFrom(bound, k + 1)
  }

  // ---------------------------------------------------------------------------
  // Sort and dedupe

  ghost predicate SortedByPriority(xs: seq<Observation>) {
    forall i, j :: 0 <= i < j < |xs| ==> xs[i].priority <= xs[j].priority
  }

  /** Stable insertion of `x` after every element of no greater priority. */
  function Insert(x: Observation, xs: seq<Observation>): (r: seq<Observation>)
    requires SortedByPriority(xs)
    ensures SortedByPriority(r)
    ensures multiset(r) == multiset(xs) + multiset{x}
    ensures |r| == |xs| + 1
    ensures r[0] == x || (xs != [] && r[0] == xs[0])
  {
    if xs == [] then [x]
    else if x.priority < xs[0].priority then [x] + xs
    else
      var tail := Insert(x, xs[1..]);
      ConsSorted(xs[0], tail);
      ConsMultiset(xs, tail, x);
      var r := [xs[0]] + tail;
      r
  }

  /** `foundSteps.sort((a, b) => a.priority - b.priority)`: a stable sort. */
  lemma ConsSorted(h: Observation, tail: seq<Observation>)
    requires SortedByPriority(tail)
    requires tail != [] ==> h.priority <= tail[0].priority
    ensures SortedByPriority([h] + tail)
  {
    var r := [h] + tail;
    forall i, j | 0 <= i < j < |r| ensures r[i].priority <= r[j].priority {
      assert r[j] == tail[j - 1];
      if i > 0 {
        assert r[i] == tail[i - 1];
      }
    }
  }

  lemma ConsMultiset(xs: seq<Observation>, tail: seq<Observation>, x: Observation)
    requires xs != []
    requires multiset(tail) == multiset(xs[1..]) + multiset{x}
    ensures multiset([xs[0]] + tail) == multiset(xs) + multiset{x}
  {
    assert xs == [xs[0]] + xs[1..];
  }

  function SortByPriority(xs: seq<Observation>): (r: seq<Observation>)
    ensures SortedByPriority(r)
    ensures multiset(r) == multiset(xs)
  {
    if xs == [] then []
    else
      assert xs == xs[..|xs| - 1] + [xs[|xs| - 1]];
      Insert(xs[|xs| - 1], SortByPriority(xs[..|xs| - 1]))
  }

  predicate HasStep(acc: seq<Observation>, step: string) {
    exists i :: 0 <= i < |acc| && acc[i].step == step
  }

  ghost predicate DistinctSteps(xs: seq<Observation>) {
    forall i, j :: 0 <= i < j < |xs| ==> xs[i].step != xs[j].step
  }

  /** The `reduce` that keeps the first observation of each step name. */
  function DedupeInto(acc: seq<Observation>, rest: seq<Observation>): (r: seq<Observation>)
    requires DistinctSteps(acc)
    requires SortedByPriority(acc + rest)
    ensures DistinctSteps(r)
    ensures SortedByPriority(r)
    ensures forall o :: o in r ==> o in acc || o in rest
    ensures forall o :: o in acc ==> o in r
    ensures forall o :: o in rest ==> HasStep(r, o.step)
    decreases |rest|
  {
    if rest == [] then
      assert acc + rest == acc;
      acc
    else
      var x := rest[0];
      var acc' := if HasStep(acc, x.step) then acc else acc + [x];
      assert SortedByPriority(acc' + rest[1..]) by {
        if HasStep(acc, x.step) {
          forall i, j | 0 <= i < j < |acc + rest[1..]|
            ensures (acc + rest[1..])[i].priority <= (acc + rest[1..])[j].priority
          {
            var ii := if i < |acc| then i else i + 1;
            var jj := if j < |acc| then j else j + 1;
            assert (acc + rest[1..])[i] == (acc + rest)[ii];
            assert (acc + rest[1..])[j] == (acc + rest)[jj];
          }
        } else {
          assert acc' + rest[1..] == acc + rest;
        }
      }
      var r := DedupeInto(acc', rest[1..]);
      assert HasStep(r, x.step) by {
        if HasStep(acc, x.step) {
          var i :| 0 <= i < |acc| && acc[i].step == x.step;
          assert acc[i] in r;
        } else {
          assert acc'[|acc|] == x;
          assert x in r;
        }
      }
      assert forall o :: o in rest ==> o == x || o in rest[1..];
      r
  }

  function Dedupe(xs: seq<Observation>): (r: seq<Observation>)
    requires SortedByPriority(xs)
    ensures DistinctSteps(r) && SortedByPriority(r)
    ensures forall o :: o in r ==> o in xs
    ensures forall o :: o in xs ==> HasStep(r, o.step)
  {
    assert [] + xs == xs;
    DedupeInto([], xs)
  }

  function UniqueSteps(found: seq<Observation>): (r: seq<Observation>)
    ensures DistinctSteps(r) && SortedByPriority(r)
    ensures forall o :: o in r ==> o in found
    ensures forall o :: o in found ==> HasStep(r, o.step)
  {
    var sorted := SortByPriority(found);
    assert forall o :: o in sorted <==> o in found by {
      forall o ensures o in sorted <==> o in found {
        assert o in sorted <==> o in multiset(sorted);
        assert o in found <==> o in multiset(found);
      }
    }
    Dedupe(sorted)
  }

  /** What the sort and dedupe produce from `found`: one observation per label,
      sorted by priority, all taken from `found` and covering all its labels. */
  ghost predicate DedupedOf(u: seq<Observation>, found: seq<Observation>) {
    DistinctSteps(u) && SortedByPriority(u)
    && (forall o :: o in u ==> o in found)
    && (forall o :: o in found ==> HasStep(u, o.step))
  }

  lemma UniqueStepsDeduped(found: seq<Observation>)
    ensures DedupedOf(UniqueSteps(found), found)
  {
  }

  /** The step labels, in order. */
  function Labels(xs: seq<Observation>): seq<string> {
    seq(|xs|, i requires 0 <= i < |xs| => xs[i].step)
  }

  // ---------------------------------------------------------------------------
  // Cost

  /** Text following a run of digits completes `(\d+)\s*sats`. */
  predicate SatsFollows(rest: string) { StartsWith(TrimStart(rest), "sats") }

  /** The sum of the values of the digit runs that `tagged` accepts, scanning
      left to right: the values a global regular expression `(\d+)<tag>`
      collects. A run that the tag does not follow is skipped whole, since no
      shorter suffix of it could be followed by the tag either. */
  function TaggedSum(s: string, tagged: string -> bool): nat
    decreases |s|
  {
    if s == [] then 0
    else if IsDigit(s[0]) then
      var d := DigitRun(s);
      var rest := s[|d|..];
      (if tagged(rest) then DigitsValue(d) else 0) + TaggedSum(rest, tagged)
    else TaggedSum(s[1..], tagged)
  }

  /** `totalCost`: every `<digits><white space>sats`, case-sensitive, summed
      without deduplication. */
  function SatsCost(logs: string): nat {
    TaggedSum(logs, SatsFollows)
  }

  /** No character of `s` is a digit. */
  ghost predicate NoDigits(s: string) { forall i :: 0 <= i < |s| ==> !IsDigit(s[i]) }

  lemma {:induction false} TaggedSumSkip(x: string, y: string, tagged: string -> bool)
    requires NoDigits(x)
    ensures TaggedSum(x + y, tagged) == TaggedSum(y, tagged)
  {
    if x != [] {
      assert (x + y)[0] == x[0];
      assert (x + y)[1..] == x[1..] + y;
      TaggedSumSkip(x[1..], y, tagged);
    } else {
      assert x + y == y;
    }
  }

  lemma TaggedSumNumber(n: nat, rest: string, tagged: string -> bool)
    requires rest == [] || !IsDigit(rest[0])
    ensures TaggedSum(NatToString(n) + rest, tagged)
            == (if tagged(rest) then n else 0) + TaggedSum(rest, tagged)
  {
    var s := NatToString(n) + rest;
    assert s[0] == NatToString(n)[0];
    DigitRunOfDigits(NatToString(n), rest);
    NatToStringValue(n);
    assert s[|NatToString(n)|..] == rest;
  }

  /** Each `<n><white space>sats` adds n, whatever comes after it: the same
      amount mentioned twice is counted twice. */
  lemma SatsCostOfAmount(n: nat, ws: string, rest: string)
    requires AllSpace(ws)
    ensures SatsCost(NatToString(n) + ws + "sats" + rest) == n + SatsCost(rest)
  {
    var lead := ws + "sats";
    var tail := lead + rest;
    ConcatAssoc4(NatToString(n), ws, "sats", rest);
    SatsLead(ws, rest);
    TaggedSumNumber(n, tail, SatsFollows);
    TaggedSumSkip(lead, rest, SatsFollows);
  }

  lemma SatsLead(ws: string, rest: string)
    requires AllSpace(ws)
    ensures SatsFollows(ws + "sats" + rest)
    ensures NoDigits(ws + "sats")
    ensures var t := ws + "sats" + rest; !IsDigit(t[0])
  {
    SatsAfterSpaces(ws, "sats", rest);
    LeadNoDigits(ws, "sats", rest);
  }

  lemma LeadNoDigits(ws: string, word: string, rest: string)
    requires AllSpace(ws) && word == "sats"
    ensures NoDigits(ws + word)
    ensures !IsDigit((ws + word + rest)[0])
  {
    SpacesNoDigits(ws);
    assert NoDigits(word);
    NoDigitsConcat(ws, word);
    HeadOfConcat(ws + word, rest);
  }

  lemma SatsAfterSpaces(ws: string, word: string, rest: string)
    requires AllSpace(ws) && word == "sats"
    ensures SatsFollows(ws + word + rest)
  {
    HeadOfConcat(word, rest);
    assert !IsJsSpace(word[0]);
    TrimStartSpaces(ws, word + rest);
    ConcatAssoc(ws, word, rest);
    StartsWithPrefix(word, rest);
  }

  lemma SpacesNoDigits(ws: string)
    requires AllSpace(ws)
    ensures NoDigits(ws)
  {
    forall i | 0 <= i < |ws| ensures !IsDigit(ws[i]) {
      SpaceNotDigit(ws[i]);
    }
  }

  lemma NoDigitsConcat(a: string, b: string)
    requires NoDigits(a) && NoDigits(b)
    ensures NoDigits(a + b)
  {
    forall i | 0 <= i < |a + b| ensures !IsDigit((a + b)[i]) {
      if i < |a| {
        assert (a + b)[i] == a[i];
      } else {
        assert (a + b)[i] == b[i - |a|];
      }
    }
  }

  lemma SpaceNotDigit(c: char)
    requires IsJsSpace(c)
    ensures !IsDigit(c)
  {
  }

  lemma {:induction false} TrimStartSpaces(ws: string, t: string)
    requires AllSpace(ws)
    requires t == [] || !IsJsSpace(t[0])
    ensures TrimStart(ws + t) == t
  {
    if ws == [] {
      assert ws + t == t;
    } else {
      assert (ws + t)[0] == ws[0];
      assert (ws + t)[1..] == ws[1..] + t;
      TrimStartSpaces(ws[1..], t);
    }
  }

  /** An amount that appears on two lines counts twice. */
  lemma SatsCostRepeated(n: nat)
    ensures var line := NatToString(n) + " sats";
            SatsCost(line + "\n" + line) == 2 * n
  {
    var line := NatToString(n) + " sats";
    var second := NatToString(n) + " " + "sats" + "";
    assert line == second;
    var middle := "\n" + second;
    assert line + "\n" + line == NatToString(n) + " " + "sats" + middle;
    SatsCostOfAmount(n, " ", middle);
    TaggedSumSkip("\n", second, SatsFollows);
    SatsCostOfAmount(n, " ", "");
  }

  // ---------------------------------------------------------------------------
  // The summary

  function InferredStep(unique: seq<Observation>): string {
    if |unique| == 0 then "Initializing"
    else
      var last := unique[|unique| - 1];
      if last.priority < 17 then
        var next := FindIndexAbove(last.priority);
        if next != -1 then Rules[next].step else "Finalizing"
      else "Completed"
  }

  /** The reported step: a marker wins, in the order the analyzer tests them;
      without one, the step inferred from the deduplicated observations. */
  function CurrentStepOf(logs: string, unique: seq<Observation>, m: Markers): string {
    if Contains(logs, m.completed) then "Completed"
    else if Contains(logs, m.failed) then "Failed"
    else if Contains(logs, m.cancelled) then "Cancelled"
    else InferredStep(unique)
  }

  /** The completed labels: those observed, and the final label as well once
      the completion marker occurs. */
  function CompletedOf(logs: string, unique: seq<Observation>, m: Markers): seq<string> {
    var completed := Labels(unique);
    if Contains(logs, m.completed) && FinalStep !in completed then completed + [FinalStep]
    else completed
  }

  /** The summary of `logs`, already split into `lines`, under the markers `m`. */
  function SummaryOf(logs: string, lines: seq<string>, m: Markers): JobSummary {
    var unique := UniqueSteps(Observations(lines));
    JobSummary(CurrentStepOf(logs, unique, m), CompletedOf(logs, unique, m), SatsCost(logs))
  }

  /** What `analyzeLogs` returns for a log. */
  function Summarize(logs: string): JobSummary {
    SummaryOf(logs, Split(logs, '\n'), LogMarkers)
  }

  /** The nested scan of `analyzeLogs`: for each line, the rows in table
      order until the first one that matches. */
  method ScanLines(lines: seq<string>) returns (foundSteps: seq<Observation>)
    ensures foundSteps == Observations(lines)
  {
    foundSteps := [];
    for i := 0 to |lines|
      invariant foundSteps == Observations(lines[..i])
    {
      var line := lines[i];
      assert lines[..i + 1][..i] == lines[..i];
      var k := 0;
      while k < |Rules|
        invariant 0 <= k <= |Rules|
        invariant FirstMatch(line) == FirstMatchFrom(line, k)
        invariant foundSteps == Observations(lines[..i])
      {
        if RuleMatches(k, line) {
          foundSteps := foundSteps + [ObservationOf(k)];
          break;
        }
        k := k + 1;
      }
      assert foundSteps == Observations(lines[..i + 1]);
    }
    assert lines[..|lines|] == lines;
  }

  /** `analyzeLogs`: the line scan, then the sort, dedupe, step inference and
      marker overrides. */
  method AnalyzeLogs(logs: string) returns (summary: JobSummary)
    ensures summary == Summarize(logs)
  {
    var lines := Split(logs, '\n');
    var totalCost := SatsCost(logs);
    var completedSteps: seq<string> := [];
    var currentStep := "Initializing";

    var foundSteps := ScanLines(lines);
    var uniqueSteps := UniqueSteps(foundSteps);
    completedSteps := completedSteps + Labels(uniqueSteps);
    assert completedSteps == Labels(uniqueSteps);

    if |uniqueSteps| > 0 {
      var lastStep := uniqueSteps[|uniqueSteps| - 1];
      if lastStep.priority < 17 {
        var nextStepIndex := FindIndexAbove(lastStep.priority);
        if nextStepIndex != -1 {
          currentStep := Rules[nextStepIndex].step;
        } else {
          currentStep := "Finalizing";
        }
      } else {
        currentStep := "Completed";
      }
    }
    assert currentStep == InferredStep(uniqueSteps);

    if Contains(logs, LogMarkers.completed) {
      currentStep := "Completed";
      if FinalStep !in completedSteps {
        completedSteps := completedSteps + [FinalStep];
      }
    } else if Contains(logs, LogMarkers.failed) {
      currentStep := "Failed";
    } else if Contains(logs, LogMarkers.cancelled) {
      currentStep := "Cancelled";
    }

    summary := JobSummary(currentStep, completedSteps, totalCost);
  }
}
