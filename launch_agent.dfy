/** Running the coding agent: the prompt, the spawned `goose` process, the
    forwarding of its output into the job log, and the handling of its end.
    The process is foreign; its output chunks and its end are parameters. */
module LaunchAgent {
  import opened JsText
  import opened JsonText
  import opened JobLog
  import opened Processes

  // ---------------------------------------------------------------------------
  // Stripping ANSI escape sequences from standard output

  const Esc: char := '\U{001B}'

  /** A character of the class `[0-?9;]`: the range U+0030..U+003F. */
  predicate IsParamChar(c: char) { '0' <= c <= '?' }

  /** A whole match of `\x1B\[[0-?9;]*[mG]`. */
  predicate IsAnsiSequence(t: string) {
    && |t| >= 3 && t[0] == Esc && t[1] == '['
    && (t[|t| - 1] == 'm' || t[|t| - 1] == 'G')
    && forall i :: 2 <= i < |t| - 1 ==> IsParamChar(t[i])
  }

  /** The number of parameter characters at the head of `s`. */
  function ParamRun(s: string): (n: nat)
    ensures n <= |s|
    ensures forall i :: 0 <= i < n ==> IsParamChar(s[i])
    ensures n < |s| ==> !IsParamChar(s[n])
  {
    if s != [] && IsParamChar(s[0]) then 1 + ParamRun(s[1..]) else 0
  }

  /** The length of the match of the pattern at the head of `s`, or 0 when it
      does not match there. The star is greedy and the final `[mG]` is not a
      parameter character, so the only candidate is the full run followed by
      `m` or `G`. */
  function MatchLength(s: string): (n: nat)
    ensures n == 0 || (n <= |s| && IsAnsiSequence(s[..n]))
  {
    if |s| >= 2 && s[0] == Esc && s[1] == '[' then
      var k := ParamRun(s[2..]);
      if 2 + k < |s| && (s[2 + k] == 'm' || s[2 + k] == 'G') then 3 + k else 0
    else 0
  }

  /** The pattern matches at the head of `s` exactly when some prefix of `s`
      is an escape sequence, and then the match is that prefix: at most one
      prefix qualifies. */
  lemma MatchLengthExact(s: string, n: nat)
    requires n <= |s| && IsAnsiSequence(s[..n])
    ensures MatchLength(s) == n
  {
    var t := s[..n];
    var k := ParamRun(s[2..]);
    assert forall i :: 2 <= i < n - 1 ==> IsParamChar(s[i]) by {
      forall i | 2 <= i < n - 1 ensures IsParamChar(s[i]) { assert t[i] == s[i]; }
    }
  }

  /** `data.toString().replace(/\x1B\[[0-?9;]*[mG]/g, "")`: scanning left to
      right, every match is removed and the scan resumes after it; where the
      pattern does not match, one character is kept. */
  function StripAnsi(s: string): (r: string)
    ensures |r| <= |s|
    ensures Esc !in s ==> r == s
    decreases |s|
  {
    if s == [] then []
    else
      var n := MatchLength(s);
      if n > 0 then StripAnsi(s[n..])
      else
        assert Esc !in s ==> Esc !in s[1..];
        assert [s[0]] + s[1..] == s;
        [s[0]] + StripAnsi(s[1..])
  }

  /** `r` is `s` with some characters deleted. */
  predicate IsSubsequence(r: string, s: string)
    decreases |s|
  {
    if r == [] then true
    else if s == [] then false
    else (r[0] == s[0] && IsSubsequence(r[1..], s[1..])) || IsSubsequence(r, s[1..])
  }

  lemma {:induction false} SubsequenceOfLonger(r: string, s: string, n: nat)
    requires n <= |s| && IsSubsequence(r, s[n..])
    ensures IsSubsequence(r, s)
    decreases n
  {
    if n > 0 {
      assert s[n - 1..][1..] == s[n..];
      if r != [] {
        assert IsSubsequence(r, s[n - 1..]);
      } else {
        assert IsSubsequence(r, s[n - 1..]);
      }
      SubsequenceOfLonger(r, s, n - 1);
    }
  }

  /** What is logged keeps the other characters of the chunk, in order. */
  lemma {:induction false} StripAnsiSubsequence(s: string)
    ensures IsSubsequence(StripAnsi(s), s)
    decreases |s|
  {
    if s != [] {
      var n := MatchLength(s);
      if n > 0 {
        StripAnsiSubsequence(s[n..]);
        SubsequenceOfLonger(StripAnsi(s), s, n);
      } else {
        StripAnsiSubsequence(s[1..]);
        var r := StripAnsi(s);
        assert r[0] == s[0] && r[1..] == StripAnsi(s[1..]);
      }
    }
  }

  /** Text without an escape character passes through, and the stripping
      goes on after it. */
  lemma {:induction false} StripAnsiPlainPrefix(t: string, u: string)
    requires Esc !in t
    ensures StripAnsi(t + u) == t + StripAnsi(u)
    decreases |t|
  {
    if t != [] {
      var s := t + u;
      assert s[0] == t[0] && s[1..] == t[1..] + u;
      assert MatchLength(s) == 0;
      StripAnsiPlainPrefix(t[1..], u);
      ConcatAssoc([t[0]], t[1..], StripAnsi(u));
      assert [t[0]] + t[1..] == t;
    } else {
      assert t + u == u;
    }
  }

  /** An escape sequence is removed whole, whatever follows it. */
  lemma StripAnsiSequence(q: string, u: string)
    requires IsAnsiSequence(q)
    ensures StripAnsi(q + u) == StripAnsi(u)
  {
    var s := q + u;
    assert s[..|q|] == q;
    MatchLengthExact(s, |q|);
    assert s[|q|..] == u;
  }

  /** Plain text, then an escape sequence, then the rest: the sequence goes
      and the text stays. */
  lemma StripAnsiTextThenSequence(t: string, q: string, u: string)
    requires Esc !in t && IsAnsiSequence(q)
    ensures StripAnsi(t + q + u) == t + StripAnsi(u)
  {
    ConcatAssoc(t, q, u);
    StripAnsiPlainPrefix(t, q + u);
    StripAnsiSequence(q, u);
  }

  /** A coloured word loses its colour codes. */
  lemma StripAnsiColouredWord()
    ensures StripAnsi("\U{001B}[32mok\U{001B}[0m") == "ok"
  {
    ColouredWordParts();
    StripAnsiTextThenSequence("", "\U{001B}[32m", "ok\U{001B}[0m");
    StripAnsiTextThenSequence("ok", "\U{001B}[0m", "");
  }

  lemma ColouredWordParts()
    ensures "\U{001B}[32mok\U{001B}[0m" == "" + "\U{001B}[32m" + "ok\U{001B}[0m"
    ensures "ok\U{001B}[0m" == "ok" + "\U{001B}[0m" + ""
    ensures "ok" + StripAnsi("") == "ok"
    ensures IsAnsiSequence("\U{001B}[32m") && IsAnsiSequence("\U{001B}[0m")
  {
  }

  /** Each chunk is stripped on its own, so a sequence split across two
      chunks of output stays in the log. */
  lemma SplitSequenceSurvives()
    ensures StripAnsi("\U{001B}[0m") == ""
    ensures StripAnsi("\U{001B}[") + StripAnsi("0m") == "\U{001B}[0m"
  {
    StripAnsiSequence("\U{001B}[0m", "");
    EscapeBracketKept();
    StripAnsiPlainPrefix("0m", []);
  }

  lemma EscapeBracketKept()
    ensures StripAnsi("\U{001B}[") == "\U{001B}["
  {
    assert MatchLength("\U{001B}[") == 0;
    assert "\U{001B}["[1..] == "[";
    StripAnsiPlainPrefix("[", []);
  }

  /** The removal is not idempotent: deleting a sequence can bring an escape
      character and the text after the sequence together into a new one. */
  lemma StripAnsiNotIdempotent()
    ensures StripAnsi("\U{001B}\U{001B}[m[m") == "\U{001B}[m"
    ensures StripAnsi(StripAnsi("\U{001B}\U{001B}[m[m")) == ""
  {
    var s := "\U{001B}\U{001B}[m[m";
    var q := "\U{001B}[m";
    DoubleEscapeParts();
    StripAnsiSequence(q, "[m");
    StripAnsiPlainPrefix("[m", []);
    StripAnsiSequence(q, []);
    assert q + [] == q;
  }

  /** The first escape character of the doubled text starts no sequence. */
  lemma DoubleEscapeParts()
    ensures MatchLength("\U{001B}\U{001B}[m[m") == 0
    ensures StripAnsi("\U{001B}\U{001B}[m[m") == "\U{001B}" + StripAnsi("\U{001B}[m" + "[m")
    ensures "\U{001B}" + "[m" == "\U{001B}[m"
    ensures IsAnsiSequence("\U{001B}[m")
  {
    var s := "\U{001B}\U{001B}[m[m";
    assert MatchLength(s) == 0;
    assert s[1..] == "\U{001B}[m" + "[m";
  }

  // ---------------------------------------------------------------------------
  // The prompt

  /** Line `i` of the template literal handed to the agent, for lines 0 to 7,
      which come before the issue content; line 2 ends with the job id. */
  function PromptLine(i: nat, jobId: nat): string
    requires i < 8
  {
    if i == 0 then "Follow the following steps in order:"
    else if i == 1 then "    "
    else if i == 2 then
      "    1. *Locally* checkout a new branch to address the issue. Prefix it with feat/ for features or chore/ or fix/ etc based on the type of change. "
      + BranchSuffix(jobId)
    else if i == 3 then "    2. *Locally* address the issue by making the relevant file changes. Don't show me the code and don't try to run the app."
    else if i == 4 then "    3. *Locally* commit the changes on the current branch with a meaningful description."
    else if i == 5 then ""
    else if i == 6 then "    The issue content is below:"
    else ""
  }

  /** The instruction that ties the branch name to the job. */
  function BranchSuffix(jobId: nat): string {
    "Suffix the branch with -" + NatToString(jobId)
  }

  /** Lines `i` to 7 of the prompt, separated by line breaks. */
  function IntroFrom(i: nat, jobId: nat): string
    requires i < 8
    decreases 8 - i
  {
    if i == 7 then PromptLine(i, jobId)
    else PromptLine(i, jobId) + "\n" + IntroFrom(i + 1, jobId)
  }

  /** The template literal handed to the agent: the instructions, then the
      issue content on a line of its own, indented, then an indented empty
      line. */
  function Prompt(jobId: nat, issueContent: string): string {
    IntroFrom(0, jobId) + ("\n    " + issueContent) + "\n    "
  }

  /** The prompt carries the issue content verbatim. */
  lemma PromptCarries(jobId: nat, issueContent: string)
    ensures Contains(Prompt(jobId, issueContent), issueContent)
  {
    var c := issueContent;
    ContainsSelf(c);
    ContainsAfter("\n    ", c, c);
    ContainsWithin(IntroFrom(0, jobId), "\n    " + c, "\n    ", c);
  }

  lemma CancelMiddle(x: string, s: string, c: string, d: string, y: string)
    requires x + (s + c) + y == x + (s + d) + y
    ensures c == d
  {
    assert |c| == |d|;
    assert c == (x + (s + c) + y)[|x| + |s|..|x| + |s| + |c|];
    assert d == (x + (s + d) + y)[|x| + |s|..|x| + |s| + |d|];
  }

  /** Two issues with different content give different prompts. */
  lemma PromptInjective(jobId: nat, c: string, d: string)
    requires Prompt(jobId, c) == Prompt(jobId, d)
    ensures c == d
  {
    CancelMiddle(IntroFrom(0, jobId), "\n    ", c, d, "\n    ");
  }

  // ---------------------------------------------------------------------------
  // The process

  /** `gooseProcess.spawnargs`: the command and its arguments. */
  function SpawnArgs(prompt: string): seq<string> {
    ["goose", "run", "--with-builtin=developer", "-t \"" + prompt + "\""]
  }

  /** The log line that records the spawn. */
  function SpawnLine(prompt: string): (line: string)
    ensures StartsWith(line, "Spawned process: ")
    ensures '\n' !in line[|"Spawned process: "|..]
  {
    var line := "Spawned process: " + QuoteArray(SpawnArgs(prompt));
    StartsWithPrefix("Spawned process: ", QuoteArray(SpawnArgs(prompt)));
    assert line[|"Spawned process: "|..] == QuoteArray(SpawnArgs(prompt));
    line
  }

  /** A piece of output, in the order the 'data' events arrive. */
  datatype Chunk = Stdout(data: string) | Stderr(data: string)

  /** The entry a chunk becomes: standard output stripped, at info level;
      standard error verbatim, at error level. */
  function ChunkEntry(c: Chunk): (e: Entry)
    ensures c.Stdout? ==> e == Entry(Info, StripAnsi(c.data)) && |e.message| <= |c.data|
    ensures c.Stderr? ==> e == Entry(Error, c.data)
  {
    match c
    case Stdout(d) => Entry(Info, StripAnsi(d))
    case Stderr(d) => Entry(Error, d)
  }

  function ChunkEntries(chunks: seq<Chunk>): (es: seq<Entry>)
    ensures |es| == |chunks|
    ensures forall i :: 0 <= i < |chunks| ==> es[i] == ChunkEntry(chunks[i])
  {
    if chunks == [] then [] else ChunkEntries(chunks[..|chunks| - 1]) + [ChunkEntry(chunks[|chunks| - 1])]
  }

  const NonZeroLogged := "Goose process exited with non-success code "
  const NonZeroRejected := "Goose process exited with non-success code: "
  const CaughtPrefix := "Error caught while running agent: "

  /** The entries written once the process has ended: nothing on a code of 0
      or null; otherwise the handler's line, then the catch's line with the
      rejection. */
  function EndEntries(end: ProcessEnd): seq<Entry> {
    var settled := SettleFalsy(end, NonZeroRejected);
    if settled.Pass? then []
    else
      var first := match end
        case SpawnError(e) => Entry(Error, "Process exited with error: " + e)
        case Closed(code) => Entry(Error, NonZeroLogged + CodeText(code));
      [first, Entry(Error, CaughtPrefix + settled.error)]
  }

  /** Everything `launchAgent` writes, in order. */
  function AgentLog(jobId: nat, issueContent: string, chunks: seq<Chunk>, end: ProcessEnd): seq<Entry> {
    SpawnEntries(Prompt(jobId, issueContent)) + ChunkEntries(chunks) + EndEntries(end)
  }

  /** `launchAgent(jobLogger, jobId, repo, issueContent)`. It never rejects:
      every failure ends in the catch, which only logs. */
  method Launch(logger: JobLogger, jobId: nat, issueContent: string, chunks: seq<Chunk>, end: ProcessEnd)
    modifies logger
    ensures logger.entries == old(logger.entries) + AgentLog(jobId, issueContent, chunks, end)
  {
    ghost var before := logger.entries;
    Spawn(logger, Prompt(jobId, issueContent));
    Forward(logger, chunks);
    Settle(logger, end);
    ConcatAssoc4(before, SpawnEntries(Prompt(jobId, issueContent)), ChunkEntries(chunks), EndEntries(end));
  }

  /** The two lines written around `spawn`. */
  function SpawnEntries(prompt: string): seq<Entry> {
    [Entry(Info, "Spawning goose process"), Entry(Info, SpawnLine(prompt))]
  }

  method Spawn(logger: JobLogger, prompt: string)
    modifies logger
    ensures logger.entries == old(logger.entries) + SpawnEntries(prompt)
  {
    logger.Log(Info, "Spawning goose process");
    var spawned := SpawnLine(prompt);
    logger.Log(Info, spawned);
  }

  /** The 'data' listeners, one entry per chunk. */
  method Forward(logger: JobLogger, chunks: seq<Chunk>)
    modifies logger
    ensures logger.entries == old(logger.entries) + ChunkEntries(chunks)
  {
    ghost var before := logger.entries;
    var i := 0;
    while i < |chunks|
      invariant 0 <= i <= |chunks|
      invariant logger.entries == before + ChunkEntries(chunks[..i])
      decreases |chunks| - i
    {
      match chunks[i] {
        case Stdout(data) => logger.Log(Info, StripAnsi(data));
        case Stderr(data) => logger.Log(Error, data);
      }
      assert chunks[..i + 1][..i] == chunks[..i];
      i := i + 1;
    }
    assert chunks[..|chunks|] == chunks;
  }

  /** The 'error' and 'close' listeners and the catch. */
  method Settle(logger: JobLogger, end: ProcessEnd)
    modifies logger
    ensures logger.entries == old(logger.entries) + EndEntries(end)
  {
    var settled := SettleFalsy(end, NonZeroRejected);
    if settled.Fail? {
      match end {
        case SpawnError(e) => logger.Log(Error, "Process exited with error: " + e);
        case Closed(code) => logger.Log(Error, NonZeroLogged + CodeText(code));
      }
      logger.Log(Error, CaughtPrefix + settled.error);
    }
  }

  // ---------------------------------------------------------------------------
  // Properties of the run

  /** Exit code 0 and a kill by signal (null) both count as success and add
      nothing after the output; any other end adds exactly two error lines,
      the last one being the catch's. */
  lemma EndsQuietlyIff(end: ProcessEnd)
    ensures EndEntries(end) == [] <==> end == Closed(Code(0)) || end == Closed(Killed)
    ensures EndEntries(end) != [] ==>
              |EndEntries(end)| == 2 && EndEntries(end)[1].level == Error
              && StartsWith(EndEntries(end)[1].message, CaughtPrefix)
  {
    if EndEntries(end) != [] {
      StartsWithPrefix(CaughtPrefix, SettleFalsy(end, NonZeroRejected).error);
    }
  }

  /** A non-zero exit code is logged twice: without a colon by the handler,
      and with one, as an Error, by the catch. */
  lemma NonZeroExitLogged(n: int)
    requires n != 0
    ensures EndEntries(Closed(Code(n))) ==
            [Entry(Error, NonZeroLogged + IntToString(n)),
             Entry(Error, CaughtPrefix + ErrorText(NonZeroRejected + IntToString(n)))]
  {
  }

  /** A spawn error is logged by its listener and again by the catch. */
  lemma SpawnErrorLogged(e: string)
    ensures EndEntries(SpawnError(e)) ==
            [Entry(Error, "Process exited with error: " + e), Entry(Error, CaughtPrefix + e)]
  {
  }

  /** The spawn line holds the whole prompt in escaped form, on one line,
      and the escaping can be undone. */
  lemma SpawnLineCarriesPrompt(prompt: string)
    ensures Contains(SpawnLine(prompt), Escape(prompt))
    ensures Unescape(Escape(prompt)) == Some(prompt)
  {
    var items := SpawnArgs(prompt);
    EscapeAppend("-t \"" + prompt, "\"");
    EscapeAppend("-t \"", prompt);
    ContainsInfix(Escape("-t \""), Escape(prompt), Escape("\""));
    QuoteArrayContains(items, 3, Escape(prompt));
    ContainsWithin("Spawned process: ", QuoteArray(items), [], Escape(prompt));
    assert "Spawned process: " + QuoteArray(items) + [] == SpawnLine(prompt);
    UnescapeEscape(prompt);
  }
}
