/** What the log analyzer makes of the lines the job's pipeline writes: the
    text of a log entry as the analyzer reads it back, which row of the step
    table each progress line matches, and when a line can or cannot add the
    completion marker. */
module LogLines {
  import opened JsText
  import opened JobLog
  import Publish
  import LogAnalysis
  import LogAnalysisProperties

  /** The text of a log contains whatever its last entry's message contains. */
  lemma LastEntryShows(entries: seq<Entry>, p: string)
    requires entries != [] && Contains(entries[|entries| - 1].message, p)
    ensures Contains(TextOf(entries), p)
  {
    var init, last := entries[..|entries| - 1], entries[|entries| - 1];
    ContainsWithin("[" + LevelName(last.level) + "] ", last.message, "\n", p);
    ContainsWithin(TextOf(init), LineOf(last), [], p);
    assert TextOf(init) + LineOf(last) + [] == TextOf(entries);
  }

  /** The success line, wherever it sits in the log, is observed as the
      analyzer's last row. */
  lemma CreatedLineObserved(a: seq<Entry>, b: seq<Entry>)
    ensures LogAnalysis.Observation(LogAnalysis.FinalStep, 17)
            in LogAnalysis.Observations(Split(TextOf(a + [Entry(Info, Publish.CreatedLine)] + b), '\n'))
  {
    var line := "[" + LevelName(Info) + "] " + Publish.CreatedLine;
    Publish.CreatedLineLacks();
    assert '\n' !in "[" + LevelName(Info) + "] ";
    LineSplitsAt(a, Entry(Info, Publish.CreatedLine), b);
    CreatedLineMatchesFinalRule();
  }

  /** The same, for the success line logged just before the last entry. */
  lemma CreatedLineObservedBeforeLast(prior: seq<Entry>, log: seq<Entry>)
    requires |log| >= 2 && log[|log| - 2] == Entry(Info, Publish.CreatedLine)
    ensures LogAnalysis.Observation(LogAnalysis.FinalStep, 17)
            in LogAnalysis.Observations(Split(TextOf(prior + log), '\n'))
  {
    LastTwo(prior, log);
    CreatedLineObserved(prior + log[..|log| - 2], [log[|log| - 1]]);
  }

  lemma LastTwo<T>(a: seq<T>, s: seq<T>)
    requires |s| >= 2
    ensures a + s == (a + s[..|s| - 2]) + [s[|s| - 2]] + [s[|s| - 1]]
  {
  }

  /** A one-line message is read back as its own line, between the lines of
      the entries around it. */
  lemma LineSplitsAt(a: seq<Entry>, e: Entry, b: seq<Entry>)
    requires '\n' !in "[" + LevelName(e.level) + "] " + e.message
    ensures LogAnalysis.Observations(Split(TextOf(a + [e] + b), '\n'))
            == LogAnalysis.Observations(Split(TextOf(a), '\n'))
               + (LogAnalysis.LineObservations("[" + LevelName(e.level) + "] " + e.message)
                  + LogAnalysis.Observations(Split(TextOf(b), '\n')))
  {
    var line := "[" + LevelName(e.level) + "] " + e.message;
    var t := TextOf(b);
    var rest := line + ['\n'] + t;
    EntryText(a, e, b);
    LogAnalysisProperties.AppendObservations(TextOf(a), rest);
    SplitAround(line, '\n', t);
    SplitWithoutSeparator(line, '\n');
    assert Split(rest, '\n') == [line] + Split(t, '\n');
    LogAnalysis.ObservationsAppend([line], Split(t, '\n'));
    assert [line][..0] == [];
    assert LogAnalysis.Observations([line]) == LogAnalysis.LineObservations(line);
  }

  lemma EntryText(a: seq<Entry>, e: Entry, b: seq<Entry>)
    ensures TextOf(a + [e] + b) == TextOf(a) + (("[" + LevelName(e.level) + "] " + e.message) + ['\n'] + TextOf(b))
  {
    TextOfAppend(a + [e], b);
    TextOfAppend(a, [e]);
    OneLineText(e);
    ConcatAssoc(TextOf(a), LineOf(e), TextOf(b));
  }

  /** The line "Preparing repository" leaves in the file is one the
      analyzer's first rule ("Checking out repository") recognises. */
  lemma PreparingLineMatchesFirstRule()
    ensures LogAnalysis.FirstMatch("[" + LevelName(Info) + "] " + "Preparing repository") == Some(0)
  {
    var p := "Preparing repository";
    assert LogAnalysis.Rules[0].pattern == [p];
    LineOfPatternMatches("[" + LevelName(Info) + "] ", p);
  }

  /** A line that carries a one-fragment pattern verbatim matches it. */
  lemma LineOfPatternMatches(prefix: string, p: string)
    ensures LogAnalysis.Search(prefix + p, [p])
  {
    assert StartsWithCI(p, p);
    LogAnalysis.SearchSingle(p, p);
    assert p[0..] == p;
    LogAnalysis.SearchInfix(prefix, p, [], [p]);
    assert prefix + p + [] == prefix + p;
  }

  /** The line a created pull request leaves in the file matches none of the
      first sixteen rows and so counts for the last one, "Pull request
      created". */
  lemma CreatedLineMatchesFinalRule()
    ensures var line := "[" + LevelName(Info) + "] " + Publish.CreatedLine;
            LogAnalysis.FirstMatch(line) == Some(16)
            && LogAnalysis.LineObservations(line) == [LogAnalysis.Observation(LogAnalysis.FinalStep, 17)]
  {
    CreatedLineLetters();
    CreatedLineMatchesLastRow();
    LogAnalysis.OnlyFinalRow("[" + LevelName(Info) + "] " + Publish.CreatedLine);
  }

  lemma CreatedLineLetters()
    ensures var line := "[" + LevelName(Info) + "] " + Publish.CreatedLine;
            LogAnalysis.Lacks(line, 'g') && LogAnalysis.Lacks(line, 'x') && LogAnalysis.Lacks(line, 'h')
            && LogAnalysis.Lacks(line, '2') && LogAnalysis.Lacks(line, '3')
  {
    Publish.CreatedLineLacks();
    assert "[" + LevelName(Info) + "] " == "[INFO] ";
    LineLacks("[INFO] ", Publish.CreatedLine, 'g');
    LineLacks("[INFO] ", Publish.CreatedLine, 'x');
    LineLacks("[INFO] ", Publish.CreatedLine, 'h');
    LineLacks("[INFO] ", Publish.CreatedLine, '2');
    LineLacks("[INFO] ", Publish.CreatedLine, '3');
  }

  lemma LineLacks(head: string, message: string, c: char)
    requires !('A' <= c <= 'Z') && c !in head && c !in message
    requires AsciiUpper(c) !in head && AsciiUpper(c) !in message
    ensures LogAnalysis.Lacks(head + message, c)
  {
    LogAnalysis.MissingInEitherCase(head + message, c);
  }

  lemma CreatedLineMatchesLastRow()
    ensures LogAnalysis.RuleMatches(16, "[" + LevelName(Info) + "] " + Publish.CreatedLine)
  {
    assert LogAnalysis.Rules[16].pattern == [Publish.CreatedLine];
    LineOfPatternMatches("[" + LevelName(Info) + "] ", Publish.CreatedLine);
  }

  /** A line lacking the marker's last character adds no marker, and a log
      that reads as failed still does after it. */
  lemma LineWithoutMarkerEnd(before: seq<Entry>, line: Entry)
    requires var m := LogAnalysis.CompletedMarker; m != [] && m[|m| - 1] !in LineOf(line)
    requires !Contains(TextOf(before), LogAnalysis.CompletedMarker)
    ensures !Contains(TextOf(before + [line]), LogAnalysis.CompletedMarker)
    ensures Contains(TextOf(before), "job failed") ==>
              LogAnalysis.Summarize(TextOf(before + [line])).currentStep == "Failed"
  {
    TextOfAppend(before, [line]);
    OneLineText(line);
    NoMarkerAdded(TextOf(before), LineOf(line));
    if Contains(TextOf(before), "job failed") {
      ContainsExtends(TextOf(before), "job failed", LineOf(line));
      LogAnalysisProperties.MarkerOverrides(TextOf(before) + LineOf(line));
    }
  }

  lemma OneLineText(line: Entry)
    ensures TextOf([line]) == LineOf(line)
  {
    assert [line][..0] == [];
  }

  /** Text without the marker's last character does not complete a marker. */
  lemma NoMarkerAdded(s: string, t: string)
    requires var m := LogAnalysis.CompletedMarker; m != [] && m[|m| - 1] !in t
    requires !Contains(s, LogAnalysis.CompletedMarker)
    ensures !Contains(s + t, LogAnalysis.CompletedMarker)
  {
    if Contains(s + t, LogAnalysis.CompletedMarker) {
      ContainsEndingBefore(s, t, LogAnalysis.CompletedMarker);
    }
  }
}
