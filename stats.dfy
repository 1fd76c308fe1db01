/** The statistics route: how many jobs completed, what the logs say was
    earned and processed, how many of the pull requests opened were merged,
    with the result kept for an hour. */
module Stats {
  import opened JsText
  import opened JobTable
  import LogAnalysis

  /** One hour in milliseconds: cached statistics younger than this are served. */
  const CacheDuration: int := 60 * 60 * 1000

  // ---------------------------------------------------------------------------
  // Numbers in the logs

  /** Text following a run of digits completes `(\d+) (input|output)` under
      the `i` flag: exactly one space, then either word in any case. */
  predicate TokenTag(rest: string) { StartsWithCI(rest, " input") || StartsWithCI(rest, " output") }

  /** The same for `(\d+) (sats)`. */
  predicate SatsTag(rest: string) { StartsWithCI(rest, " sats") }

  /** The numbers of the matches that a global `(\d+)<tag>` finds, left to
      right; `parseInt` of the digits of each match. A digit run the tag does
      not follow is skipped whole, since no suffix of it is followed by the
      tag either. */
  function Matches(s: string, tagged: string -> bool): seq<nat>
    decreases |s|
  {
    if s == [] then []
    else if IsDigit(s[0]) then
      var d := DigitRun(s);
      var rest := s[|d|..];
      (if tagged(rest) then [DigitsValue(d)] else []) + Matches(rest, tagged)
    else Matches(s[1..], tagged)
  }

  function Sum(xs: seq<nat>): nat {
    if xs == [] then 0 else Sum(xs[..|xs| - 1]) + xs[|xs| - 1]
  }

  lemma {:induction false} SumAppend(a: seq<nat>, b: seq<nat>)
    ensures Sum(a + b) == Sum(a) + Sum(b)
    decreases |b|
  {
    if b == [] {
      assert a + b == a;
    } else {
      assert (a + b)[..|a + b| - 1] == a + b[..|b| - 1];
      SumAppend(a, b[..|b| - 1]);
    }
  }

  /** Adding up the matches gives the tagged sum of the analyzer's cost, with
      the route's own tags. */
  lemma {:induction false} SumOfMatches(s: string, tagged: string -> bool)
    ensures Sum(Matches(s, tagged)) == LogAnalysis.TaggedSum(s, tagged)
    decreases |s|
  {
    if s != [] {
      if IsDigit(s[0]) {
        var d := DigitRun(s);
        var rest := s[|d|..];
        SumOfMatches(rest, tagged);
        var head := if tagged(rest) then [DigitsValue(d)] else [];
        SumAppend(head, Matches(rest, tagged));
        if tagged(rest) {
          assert Sum(head) == DigitsValue(d) by {
            assert head[..0] == [];
          }
        }
      } else {
        SumOfMatches(s[1..], tagged);
      }
    }
  }

  /** What one job's log adds to a total: nothing when it cannot be read. */
  function LogCount(id: nat, logs: map<nat, string>, tagged: string -> bool): nat {
    if id in logs then LogAnalysis.TaggedSum(logs[id], tagged) else 0
  }

  /** A total over the completed jobs, in order. */
  function LogTotal(rows: seq<Job>, logs: map<nat, string>, tagged: string -> bool): nat {
    if rows == [] then 0
    else LogTotal(rows[..|rows| - 1], logs, tagged) + LogCount(rows[|rows| - 1].id, logs, tagged)
  }

  lemma {:induction false} LogTotalAppend(a: seq<Job>, b: seq<Job>, logs: map<nat, string>, tagged: string -> bool)
    ensures LogTotal(a + b, logs, tagged) == LogTotal(a, logs, tagged) + LogTotal(b, logs, tagged)
    decreases |b|
  {
    if b == [] {
      assert a + b == a;
    } else {
      assert (a + b)[..|a + b| - 1] == a + b[..|b| - 1];
      assert (a + b)[|a + b| - 1] == b[|b| - 1];
      LogTotalAppend(a, b[..|b| - 1], logs, tagged);
    }
  }

  /** A job whose log cannot be read adds nothing, and the jobs after it are
      still counted. */
  lemma UnreadableLogSkipped(a: seq<Job>, job: Job, b: seq<Job>, logs: map<nat, string>, tagged: string -> bool)
    requires job.id !in logs
    ensures LogTotal(a + [job] + b, logs, tagged) == LogTotal(a + b, logs, tagged)
  {
    LogTotalAppend(a + [job], b, logs, tagged);
    LogTotalAppend(a, [job], logs, tagged);
    LogTotalAppend(a, b, logs, tagged);
    assert [job][..0] == [];
  }

  /** A job's log adds its count to both totals whatever the other jobs are. */
  lemma OneLogCounted(job: Job, logs: map<nat, string>, tagged: string -> bool)
    requires job.id in logs
    ensures LogTotal([job], logs, tagged) == LogAnalysis.TaggedSum(logs[job.id], tagged)
  {
    assert [job][..0] == [];
  }

  /** Each "<n> input" or "<n> output", in any case, adds n to the tokens. */
  lemma TokenMentionCounted(n: nat, rest: string)
    requires StartsWithCI(rest, " input") || StartsWithCI(rest, " output")
    ensures LogAnalysis.TaggedSum(NatToString(n) + rest, TokenTag) == n + LogAnalysis.TaggedSum(rest, TokenTag)
  {
    assert CharEqCI(rest[0], ' ');
    LogAnalysis.TaggedSumNumber(n, rest, TokenTag);
  }

  /** Each "<n> sats", in any case, adds n to the earnings. */
  lemma SatsMentionCounted(n: nat, rest: string)
    requires StartsWithCI(rest, " sats")
    ensures LogAnalysis.TaggedSum(NatToString(n) + rest, SatsTag) == n + LogAnalysis.TaggedSum(rest, SatsTag)
  {
    assert CharEqCI(rest[0], ' ');
    LogAnalysis.TaggedSumNumber(n, rest, SatsTag);
  }

  /** With more than one white-space character before "sats" the route adds
      nothing, while the log analyzer's cost, which allows any white space,
      adds n. */
  lemma WideSpacingOnlyInCost(n: nat, ws: string, rest: string)
    requires AllSpace(ws) && |ws| >= 2
    ensures LogAnalysis.TaggedSum(NatToString(n) + ws + "sats" + rest, SatsTag) == LogAnalysis.TaggedSum(rest, SatsTag)
    ensures LogAnalysis.SatsCost(NatToString(n) + ws + "sats" + rest) == n + LogAnalysis.SatsCost(rest)
  {
    var tail := ws + "sats" + rest;
    ConcatAssoc4(NatToString(n), ws, "sats", rest);
    LogAnalysis.SatsLead(ws, rest);
    assert tail[1] == ws[1];
    assert !CharEqCI(tail[1], " sats"[1]);
    LogAnalysis.TaggedSumNumber(n, tail, SatsTag);
    LogAnalysis.TaggedSumSkip(ws + "sats", rest, SatsTag);
    LogAnalysis.SatsCostOfAmount(n, ws, rest);
  }

  /** `totalTokensProcessed += tokenCount` over the matches of one log. */
  method AddMatches(total: nat, xs: seq<nat>) returns (total': nat)
    ensures total' == total + Sum(xs)
  {
    total' := total;
    var i := 0;
    while i < |xs|
      invariant 0 <= i <= |xs|
      invariant total' == total + Sum(xs[..i])
    {
      assert xs[..i + 1][..i] == xs[..i];
      total' := total' + xs[i];
      i := i + 1;
    }
    assert xs[..|xs|] == xs;
  }

  /** The loop over the completed jobs' logs; a log that cannot be read is
      skipped. */
  method SumLogs(rows: seq<Job>, logs: map<nat, string>) returns (tokens: nat, sats: nat)
    ensures tokens == LogTotal(rows, logs, TokenTag)
    ensures sats == LogTotal(rows, logs, SatsTag)
  {
    tokens, sats := 0, 0;
    var i := 0;
    while i < |rows|
      invariant 0 <= i <= |rows|
      invariant tokens == LogTotal(rows[..i], logs, TokenTag)
      invariant sats == LogTotal(rows[..i], logs, SatsTag)
    {
      var job := rows[i];
      assert rows[..i + 1][..i] == rows[..i] && rows[..i + 1][i] == job;
      if job.id in logs {
        var content := logs[job.id];
        tokens := AddMatches(tokens, Matches(content, TokenTag));
        sats := AddMatches(sats, Matches(content, SatsTag));
        SumOfMatches(content, TokenTag);
        SumOfMatches(content, SatsTag);
      }
      i := i + 1;
    }
    assert rows[..|rows|] == rows;
  }

  // ---------------------------------------------------------------------------
  // Pull-request URLs

  /** What `github\.com\/([^/]+)\/([^/]+)\/pull\/(\d+)` captures. */
  datatype PrRef = PrRef(owner: string, repo: string, number: nat)

  /** The owner and the repository are non-empty and slash-free. */
  predicate Segment(s: string) { s != [] && '/' !in s }

  /** The longest prefix without a slash: what a greedy `[^/]+` takes. */
  function NonSlashRun(s: string): (r: string)
    ensures |r| <= |s| && r == s[..|r|] && '/' !in r
    ensures |r| < |s| ==> s[|r|] == '/'
  {
    if s != [] && s[0] != '/' then [s[0]] + NonSlashRun(s[1..]) else []
  }

  /** The pattern tried at the start of `t`. Since `[^/]+` stops only at a
      slash and `\d+` comes last, backtracking finds nothing the greedy runs
      miss, so the match is read off layer by layer. */
  function PrAt(t: string): (r: Option<PrRef>)
    ensures r.Some? ==> Segment(r.value.owner) && Segment(r.value.repo)
  {
    if StartsWith(t, "github.com/") then OwnerPart(t[11..]) else None
  }

  /** `([^/]+)\/` and what follows. */
  function OwnerPart(u: string): (r: Option<PrRef>)
    ensures r.Some? ==> Segment(r.value.owner) && Segment(r.value.repo)
  {
    var owner := NonSlashRun(u);
    if owner == [] || |owner| == |u| then None else RepoPart(owner, u[|owner| + 1..])
  }

  /** `([^/]+)\/pull\/` and what follows. */
  function RepoPart(owner: string, v: string): (r: Option<PrRef>)
    requires Segment(owner)
    ensures r.Some? ==> r.value.owner == owner && Segment(r.value.repo)
  {
    var repo := NonSlashRun(v);
    if repo == [] || !StartsWith(v[|repo|..], "/pull/") then None else NumberPart(owner, repo, v[|repo| + 6..])
  }

  /** `(\d+)`. */
  function NumberPart(owner: string, repo: string, w: string): (r: Option<PrRef>)
    ensures r.Some? ==> r.value.owner == owner && r.value.repo == repo
  {
    var digits := DigitRun(w);
    if digits == [] then None else Some(PrRef(owner, repo, DigitsValue(digits)))
  }

  /** The leftmost position from `i` on where the pattern matches. */
  function PrFrom(s: string, i: nat): (r: Option<PrRef>)
    requires i <= |s|
    ensures r.Some? ==> Segment(r.value.owner) && Segment(r.value.repo)
    decreases |s| - i
  {
    var m := PrAt(s[i..]);
    if m.Some? || i == |s| then m else PrFrom(s, i + 1)
  }

  /** `prUrl.match(...)`, not global: the leftmost match, or none. */
  function ParsePrUrl(s: string): (r: Option<PrRef>)
    ensures r.Some? ==> Segment(r.value.owner) && Segment(r.value.repo)
  {
    PrFrom(s, 0)
  }

  /** No match starts anywhere but at a "g". */
  lemma PrAtNeedsG(t: string)
    requires t == [] || t[0] != 'g'
    ensures PrAt(t) == None
  {
    if |t| >= 11 {
      assert t[..11][0] == t[0];
    }
  }

  /** Positions where the pattern cannot start are passed over. */
  lemma {:induction false} PrFromSkips(s: string, i: nat, j: nat)
    requires i <= j <= |s|
    requires forall k :: i <= k < j ==> s[k] != 'g'
    ensures PrFrom(s, i) == PrFrom(s, j)
    decreases j - i
  {
    if i < j {
      PrAtNeedsG(s[i..]);
      PrFromSkips(s, i + 1, j);
    }
  }

  lemma {:induction false} NonSlashRunOf(x: string, tail: string)
    requires '/' !in x && tail != [] && tail[0] == '/'
    ensures NonSlashRun(x + tail) == x
    decreases |x|
  {
    if x == [] {
      assert x + tail == tail;
    } else {
      assert (x + tail)[0] == x[0];
      assert (x + tail)[1..] == x[1..] + tail;
      NonSlashRunOf(x[1..], tail);
    }
  }

  lemma DropFront<T>(a: seq<T>, b: seq<T>)
    ensures (a + b)[|a|..] == b
  {
  }

  lemma DropBoth<T>(a: seq<T>, m: seq<T>, b: seq<T>)
    ensures (a + (m + b))[|a| + |m|..] == b
  {
  }

  lemma NumberPartOf(o: string, r: string, n: nat, rest: string)
    requires rest == [] || !IsDigit(rest[0])
    ensures NumberPart(o, r, NatToString(n) + rest) == Some(PrRef(o, r, n))
  {
    DigitRunOfDigits(NatToString(n), rest);
    NatToStringValue(n);
  }

  lemma RepoPartOf(o: string, r: string, w: string)
    requires Segment(o) && Segment(r)
    ensures RepoPart(o, r + ("/pull/" + w)) == NumberPart(o, r, w)
  {
    var t := "/pull/" + w;
    NonSlashRunOf(r, t);
    DropFront(r, t);
    DropFront("/pull/", w);
    assert StartsWith(t, "/pull/");
  }

  lemma OwnerPartOf(o: string, v: string)
    requires Segment(o)
    ensures OwnerPart(o + ("/" + v)) == RepoPart(o, v)
  {
    NonSlashRunOf(o, "/" + v);
    DropBoth(o, "/", v);
  }

  lemma PrAtOfText(u: string)
    ensures PrAt("github.com/" + u) == OwnerPart(u)
  {
    DropFront("github.com/", u);
    assert StartsWith("github.com/" + u, "github.com/");
  }

  /** The pattern at the start of "github.com/<owner>/<repo>/pull/<n>...". */
  lemma PrAtOf(o: string, r: string, n: nat, rest: string)
    requires Segment(o) && Segment(r)
    requires rest == [] || !IsDigit(rest[0])
    ensures PrAt("github.com/" + (o + ("/" + (r + ("/pull/" + (NatToString(n) + rest)))))) == Some(PrRef(o, r, n))
  {
    var w := NatToString(n) + rest;
    PrAtOfText(o + ("/" + (r + ("/pull/" + w))));
    OwnerPartOf(o, r + ("/pull/" + w));
    RepoPartOf(o, r, w);
    NumberPartOf(o, r, n, rest);
  }

  /** Text before the first "g" is passed over. */
  lemma ParseAfterPrefix(prefix: string, body: string)
    requires 'g' !in prefix && PrAt(body).Some?
    ensures ParsePrUrl(prefix + body) == PrAt(body)
  {
    var s := prefix + body;
    PrFromSkips(s, 0, |prefix|);
    DropFront(prefix, body);
  }

  lemma UrlText(prefix: string, o: string, r: string, d: string, rest: string)
    ensures prefix + "github.com/" + o + "/" + r + "/pull/" + d + rest
            == prefix + ("github.com/" + (o + ("/" + (r + ("/pull/" + (d + rest))))))
  {
  }

  /** A pull-request URL with no "g" before its "github.com/" part is read
      back into its owner, repository and number. */
  lemma ParseGitHubPrUrl(prefix: string, o: string, r: string, n: nat, rest: string)
    requires 'g' !in prefix
    requires Segment(o) && Segment(r)
    requires rest == [] || !IsDigit(rest[0])
    ensures ParsePrUrl(prefix + "github.com/" + o + "/" + r + "/pull/" + NatToString(n) + rest) == Some(PrRef(o, r, n))
  {
    UrlText(prefix, o, r, NatToString(n), rest);
    PrAtOf(o, r, n, rest);
    ParseAfterPrefix(prefix, "github.com/" + (o + ("/" + (r + ("/pull/" + (NatToString(n) + rest))))));
  }

  // ---------------------------------------------------------------------------
  // Grouping by repository

  /** `${owner}/${repo}`. */
  function KeyOf(ref: PrRef): string { ref.owner + "/" + ref.repo }

  /** `repoKey.split("/")` gives the owner and the repository back. */
  lemma KeySplits(ref: PrRef)
    requires Segment(ref.owner) && Segment(ref.repo)
    ensures Split(KeyOf(ref), '/') == [ref.owner, ref.repo]
  {
    SplitAround(ref.owner, '/', ref.repo);
    SplitWithoutSeparator(ref.owner, '/');
    SplitWithoutSeparator(ref.repo, '/');
  }

  /** One entry of `repoStats`: the key and its set of numbers, both in
      insertion order, as a `Map` and a `Set` iterate. */
  datatype RepoPrs = RepoPrs(key: string, numbers: seq<nat>)

  /** The position of `key`, or the length when it is absent. */
  function FindKey(groups: seq<RepoPrs>, key: string): (k: nat)
    ensures k <= |groups|
    ensures k < |groups| ==> groups[k].key == key
    ensures forall j :: 0 <= j < k ==> groups[j].key != key
  {
    if groups == [] then 0
    else if groups[0].key == key then 0
    else 1 + FindKey(groups[1..], key)
  }

  /** `Set.add`: a number already there is not added twice. */
  function AddNumber(numbers: seq<nat>, n: nat): seq<nat> {
    if n in numbers then numbers else numbers + [n]
  }

  /** `has`, then `set` of an empty set when absent, then `get(...).add`. */
  function AddPr(groups: seq<RepoPrs>, ref: PrRef): seq<RepoPrs> {
    var key := KeyOf(ref);
    var k := FindKey(groups, key);
    if k < |groups| then groups[k := RepoPrs(key, AddNumber(groups[k].numbers, ref.number))]
    else groups + [RepoPrs(key, [ref.number])]
  }

  /** The pull request a completed job's row points to: `prUrl` must be
      set and non-empty, and must match. */
  function PrOfRow(job: Job): Option<PrRef> {
    if job.prUrl.Some? && job.prUrl.value != [] then ParsePrUrl(job.prUrl.value) else None
  }

  /** `repoStats` after the loop over the rows. */
  function Grouped(rows: seq<Job>): seq<RepoPrs> {
    if rows == [] then []
    else
      var groups := Grouped(rows[..|rows| - 1]);
      match PrOfRow(rows[|rows| - 1])
      case None => groups
      case Some(ref) => AddPr(groups, ref)
  }

  method GroupPrs(rows: seq<Job>) returns (groups: seq<RepoPrs>)
    ensures groups == Grouped(rows)
  {
    groups := [];
    var i := 0;
    while i < |rows|
      invariant 0 <= i <= |rows|
      invariant groups == Grouped(rows[..i])
    {
      assert rows[..i + 1][..i] == rows[..i] && rows[..i + 1][i] == rows[i];
      var job := rows[i];
      if job.prUrl.Some? && job.prUrl.value != [] {
        var m := ParsePrUrl(job.prUrl.value);
        if m.Some? {
          groups := AddPr(groups, m.value);
        }
      }
      i := i + 1;
    }
    assert rows[..|rows|] == rows;
  }

  /** Number `n` is in the set under `key`. */
  predicate Holds(groups: seq<RepoPrs>, key: string, n: nat) {
    exists k :: 0 <= k < |groups| && groups[k].key == key && n in groups[k].numbers
  }

  /** Keys are distinct, each key is "<owner>/<repo>" with slash-free
      non-empty parts, and no number is listed twice under a key. */
  predicate WellGrouped(groups: seq<RepoPrs>) {
    (forall i, j :: 0 <= i < j < |groups| ==> groups[i].key != groups[j].key)
    && (forall i :: 0 <= i < |groups| ==> TwoSegments(groups[i].key))
    && (forall i :: 0 <= i < |groups| ==> Distinct(groups[i].numbers))
  }

  predicate TwoSegments(key: string) {
    var parts := Split(key, '/');
    |parts| == 2 && Segment(parts[0]) && Segment(parts[1])
  }

  predicate Distinct(xs: seq<nat>) {
    forall a, b :: 0 <= a < b < |xs| ==> xs[a] != xs[b]
  }

  lemma AddNumberHolds(numbers: seq<nat>, n: nat, m: nat)
    ensures m in AddNumber(numbers, n) <==> m in numbers || m == n
    ensures Distinct(numbers) ==> Distinct(AddNumber(numbers, n))
  {
  }

  /** What `AddPr` adds, and nothing else. */
  lemma AddPrHolds(groups: seq<RepoPrs>, ref: PrRef, key: string, n: nat)
    ensures Holds(AddPr(groups, ref), key, n) <==> Holds(groups, key, n) || (key == KeyOf(ref) && n == ref.number)
  {
    var g := AddPr(groups, ref);
    var k := FindKey(groups, KeyOf(ref));
    if k < |groups| {
      AddNumberHolds(groups[k].numbers, ref.number, n);
      if Holds(groups, key, n) {
        var j :| 0 <= j < |groups| && groups[j].key == key && n in groups[j].numbers;
        assert g[j].key == key && n in g[j].numbers;
      }
      if key == KeyOf(ref) && n == ref.number {
        assert g[k].key == key && n in g[k].numbers;
      }
      if Holds(g, key, n) {
        var j :| 0 <= j < |g| && g[j].key == key && n in g[j].numbers;
        if j != k {
          assert groups[j] == g[j];
        }
      }
    } else {
      if Holds(groups, key, n) {
        var j :| 0 <= j < |groups| && groups[j].key == key && n in groups[j].numbers;
        assert g[j] == groups[j];
      }
      if key == KeyOf(ref) && n == ref.number {
        assert g[|groups|].key == key && n in g[|groups|].numbers;
      }
      if Holds(g, key, n) {
        var j :| 0 <= j < |g| && g[j].key == key && n in g[j].numbers;
        if j < |groups| {
          assert groups[j] == g[j];
        }
      }
    }
  }

  /** `AddPr` keeps the map well formed. */
  lemma AddPrWell(groups: seq<RepoPrs>, ref: PrRef)
    requires WellGrouped(groups) && Segment(ref.owner) && Segment(ref.repo)
    ensures WellGrouped(AddPr(groups, ref))
  {
    KeySplits(ref);
    var k := FindKey(groups, KeyOf(ref));
    if k < |groups| {
      AddNumberHolds(groups[k].numbers, ref.number, ref.number);
    }
  }

  /** An existing pull request is not added again. */
  lemma AddPrPresent(groups: seq<RepoPrs>, ref: PrRef)
    requires WellGrouped(groups) && Holds(groups, KeyOf(ref), ref.number)
    ensures AddPr(groups, ref) == groups
  {
    var j :| 0 <= j < |groups| && groups[j].key == KeyOf(ref) && ref.number in groups[j].numbers;
    var k := FindKey(groups, KeyOf(ref));
    assert k == j;
    assert groups[k := groups[k]] == groups;
  }

  lemma {:induction false} GroupedWell(rows: seq<Job>)
    ensures WellGrouped(Grouped(rows))
    decreases |rows|
  {
    if rows != [] {
      GroupedWell(rows[..|rows| - 1]);
      var m := PrOfRow(rows[|rows| - 1]);
      if m.Some? {
        AddPrWell(Grouped(rows[..|rows| - 1]), m.value);
      }
    }
  }

  /** The row points to pull request `n` of `key`. */
  predicate Points(job: Job, key: string, n: nat) {
    var m := PrOfRow(job);
    m.Some? && KeyOf(m.value) == key && m.value.number == n
  }

  function PointsTo(key: string, n: nat): Job -> bool {
    job => Points(job, key, n)
  }

  /** Some element satisfies `p`. */
  predicate AnyAt<T>(s: seq<T>, p: T -> bool) {
    exists i :: 0 <= i < |s| && p(s[i])
  }

  lemma AnyAtSnoc<T>(s: seq<T>, p: T -> bool)
    requires s != []
    ensures AnyAt(s, p) <==> AnyAt(s[..|s| - 1], p) || p(s[|s| - 1])
  {
    var init := s[..|s| - 1];
    if AnyAt(s, p) {
      var i :| 0 <= i < |s| && p(s[i]);
      if i < |init| {
        assert init[i] == s[i];
      }
    }
    if AnyAt(init, p) {
      var i :| 0 <= i < |init| && p(init[i]);
      assert s[i] == init[i];
    }
  }

  /** Some row points to pull request `n` of `key`. */
  predicate Mentioned(rows: seq<Job>, key: string, n: nat) {
    AnyAt(rows, PointsTo(key, n))
  }

  lemma MentionedSnoc(rows: seq<Job>, key: string, n: nat)
    requires rows != []
    ensures Mentioned(rows, key, n) <==> Mentioned(rows[..|rows| - 1], key, n) || Points(rows[|rows| - 1], key, n)
  {
    AnyAtSnoc(rows, PointsTo(key, n));
  }

  /** The map holds exactly the pull requests the rows point to. */
  lemma {:induction false} GroupedHolds(rows: seq<Job>, key: string, n: nat)
    ensures Holds(Grouped(rows), key, n) <==> Mentioned(rows, key, n)
    decreases |rows|
  {
    if rows != [] {
      var init, last := rows[..|rows| - 1], rows[|rows| - 1];
      GroupedHolds(init, key, n);
      MentionedSnoc(rows, key, n);
      var m := PrOfRow(last);
      if m.Some? {
        AddPrHolds(Grouped(init), m.value, key, n);
      }
    }
  }

  /** A second job pointing to a pull request already seen changes nothing,
      so each pull request is asked about once. */
  lemma DuplicatePrIgnored(rows: seq<Job>, job: Job)
    requires PrOfRow(job).Some?
    requires Mentioned(rows, KeyOf(PrOfRow(job).value), PrOfRow(job).value.number)
    ensures Grouped(rows + [job]) == Grouped(rows)
  {
    var ref := PrOfRow(job).value;
    assert (rows + [job])[..|rows|] == rows;
    GroupedHolds(rows, KeyOf(ref), ref.number);
    GroupedWell(rows);
    AddPrPresent(Grouped(rows), ref);
  }

  // ---------------------------------------------------------------------------
  // Merged pull requests

  /** What `pulls.get` says of a pull request: `merged`, or absent when the
      request throws. */
  type Pulls = map<PrRef, bool>

  /** `const [owner, repo] = repoKey.split("/")`, then `pulls.get`; a key
      without a slash has no repository to ask about. */
  function Asked(parts: seq<string>, n: nat): Option<PrRef> {
    if |parts| >= 2 then Some(PrRef(parts[0], parts[1], n)) else None
  }

  function MergedOne(req: Option<PrRef>, pulls: Pulls): nat {
    if req.Some? && req.value in pulls && pulls[req.value] then 1 else 0
  }

  /** The merged ones among one key's numbers. */
  function MergedIn(parts: seq<string>, numbers: seq<nat>, pulls: Pulls): nat {
    if numbers == [] then 0
    else MergedIn(parts, numbers[..|numbers| - 1], pulls) + MergedOne(Asked(parts, numbers[|numbers| - 1]), pulls)
  }

  function MergedOf(groups: seq<RepoPrs>, pulls: Pulls): nat {
    if groups == [] then 0
    else
      var g := groups[|groups| - 1];
      MergedOf(groups[..|groups| - 1], pulls) + MergedIn(Split(g.key, '/'), g.numbers, pulls)
  }

  /** How many pull requests the map holds. */
  function PrCount(groups: seq<RepoPrs>): nat {
    if groups == [] then 0 else PrCount(groups[..|groups| - 1]) + |groups[|groups| - 1].numbers|
  }

  lemma {:induction false} MergedInBound(parts: seq<string>, numbers: seq<nat>, pulls: Pulls)
    ensures MergedIn(parts, numbers, pulls) <= |numbers|
    decreases |numbers|
  {
    if numbers != [] {
      MergedInBound(parts, numbers[..|numbers| - 1], pulls);
    }
  }

  /** No more are merged than there are pull requests. */
  lemma {:induction false} MergedOfBound(groups: seq<RepoPrs>, pulls: Pulls)
    ensures MergedOf(groups, pulls) <= PrCount(groups)
    decreases |groups|
  {
    if groups != [] {
      var g := groups[|groups| - 1];
      MergedOfBound(groups[..|groups| - 1], pulls);
      MergedInBound(Split(g.key, '/'), g.numbers, pulls);
    }
  }

  /** The request made for a grouped pull request is about exactly the
      owner, repository and number its URL named. */
  lemma AskedAsParsed(ref: PrRef)
    requires Segment(ref.owner) && Segment(ref.repo)
    ensures Asked(Split(KeyOf(ref), '/'), ref.number) == Some(ref)
  {
    KeySplits(ref);
  }

  /** The loops over `repoStats` and each set, `totalMergedPRs++` for each
      merged one; a failed request is skipped. */
  method CountMerged(groups: seq<RepoPrs>, pulls: Pulls) returns (count: nat)
    ensures count == MergedOf(groups, pulls)
  {
    count := 0;
    var i := 0;
    while i < |groups|
      invariant 0 <= i <= |groups|
      invariant count == MergedOf(groups[..i], pulls)
    {
      assert groups[..i + 1][..i] == groups[..i] && groups[..i + 1][i] == groups[i];
      var parts := Split(groups[i].key, '/');
      var numbers := groups[i].numbers;
      ghost var before := count;
      var j := 0;
      while j < |numbers|
        invariant 0 <= j <= |numbers|
        invariant count == before + MergedIn(parts, numbers[..j], pulls)
      {
        assert numbers[..j + 1][..j] == numbers[..j] && numbers[..j + 1][j] == numbers[j];
        var req := Asked(parts, numbers[j]);
        if req.Some? && req.value in pulls && pulls[req.value] {
          count := count + 1;
        }
        j := j + 1;
      }
      assert numbers[..|numbers|] == numbers;
      i := i + 1;
    }
    assert groups[..|groups|] == groups;
  }

  // ---------------------------------------------------------------------------
  // The statistics and their cache

  datatype Stats = Stats(totalCompletedJobs: nat, totalEarningsInSats: nat, totalTokensProcessed: nat,
                         totalMergedPRs: nat, lastUpdated: int)

  /** The collaborators' answers: whether `findMany` goes through, the log
      files that can be read, `GITHUB_TOKEN` and the pull requests. */
  datatype StatsEnv = StatsEnv(query: Outcome, logs: map<nat, string>, token: Option<string>, pulls: Pulls)

  /** An unset or empty variable is falsy. */
  predicate Truthy(token: Option<string>) { token.Some? && token.value != [] }

  function MergedTotal(rows: seq<Job>, env: StatsEnv): nat {
    if Truthy(env.token) then MergedOf(Grouped(rows), env.pulls) else 0
  }

  /** `calculateStats` over the completed rows; `clock` is `new Date()` at
      the end. */
  function StatsOf(rows: seq<Job>, env: StatsEnv, clock: int): Stats {
    Stats(|rows|, LogTotal(rows, env.logs, SatsTag), LogTotal(rows, env.logs, TokenTag), MergedTotal(rows, env), clock)
  }

  /** Without a token no pull request is counted as merged, and with one no
      more than the distinct pull requests the rows point to. */
  lemma MergedBounds(rows: seq<Job>, env: StatsEnv)
    ensures !Truthy(env.token) ==> MergedTotal(rows, env) == 0
    ensures MergedTotal(rows, env) <= PrCount(Grouped(rows))
  {
    MergedOfBound(Grouped(rows), env.pulls);
  }

  /** `calculateStats`: a failing query rejects. */
  method CalculateStats(store: JobStore, env: StatsEnv, clock: int) returns (r: Result<Stats, string>)
    requires store.Valid()
    ensures env.query.Fail? ==> r == Err(env.query.error)
    ensures env.query.Pass? ==> r == Ok(StatsOf(store.FindMany(IsCompleted), env, clock))
  {
    if env.query.Fail? {
      return Err(env.query.error);
    }
    var rows := store.FindMany(IsCompleted);
    var tokens, sats := SumLogs(rows, env.logs);
    var merged := 0;
    if Truthy(env.token) {
      var groups := GroupPrs(rows);
      merged := CountMerged(groups, env.pulls);
    }
    r := Ok(Stats(|rows|, sats, tokens, merged, clock));
  }

  predicate Increasing(ids: seq<nat>) {
    forall i, j :: 0 <= i < j < |ids| ==> ids[i] < ids[j]
  }

  function Elements(ids: seq<nat>): set<nat> { set x | x in ids }

  lemma ElementsSnoc(init: seq<nat>, last: nat)
    ensures Elements(init + [last]) == Elements(init) + {last}
  {
    var ids := init + [last];
    forall x ensures x in ids <==> x in init || x == last {
      if x in ids {
        var k :| 0 <= k < |ids| && ids[k] == x;
        if k < |init| {
          assert init[k] == x;
        }
      }
    }
  }

  /** Distinct ids are as many as the set they make. */
  lemma {:induction false} IncreasingCard(ids: seq<nat>)
    requires Increasing(ids)
    ensures |Elements(ids)| == |ids|
    decreases |ids|
  {
    if ids != [] {
      var init, last := ids[..|ids| - 1], ids[|ids| - 1];
      assert Increasing(init);
      IncreasingCard(init);
      var before := Elements(init);
      var after := Elements(ids);
      assert ids == init + [last];
      ElementsSnoc(init, last);
      forall k | 0 <= k < |init| ensures init[k] != last {
        assert ids[k] < ids[|ids| - 1];
      }
      assert last !in before;
      assert |after| == |before| + 1;
    } else {
      assert Elements(ids) == {};
    }
  }

  /** `totalCompletedJobs` is the number of jobs whose status is COMPLETED. */
  lemma CompletedJobsCounted(store: JobStore)
    requires store.Valid()
    ensures |store.FindMany(IsCompleted)| == |set id | id in store.jobs && store.jobs[id].status == Completed|
  {
    var ids := SelectedIds(store.jobs, store.nextId, IsCompleted);
    IncreasingCard(ids);
    assert Elements(ids) == (set id | id in store.jobs && store.jobs[id].status == Completed);
  }

  /** The reply of `GET /`. */
  datatype StatsResponse = Served(data: Stats, cached: bool) | ServerError(message: string)

  const StatsErrorMessage := "Internal Server Error while fetching stats"

  /** Cached statistics are served while younger than an hour. */
  predicate Fresh(cached: Option<Stats>, now: int) {
    cached.Some? && now - cached.value.lastUpdated < CacheDuration
  }

  /** The module-level `cachedStats`. */
  class StatsCache {
    var cached: Option<Stats>

    constructor ()
      ensures cached == None
    {
      cached := None;
    }

    /** The GET handler at time `now`; `clock` is the time at which a
        recomputation finishes. A failure replies 500 and keeps the cache. */
    method Get(store: JobStore, env: StatsEnv, now: int, clock: int) returns (resp: StatsResponse)
      requires store.Valid()
      modifies this
      ensures Fresh(old(cached), now) ==> resp == Served(old(cached).value, true) && cached == old(cached)
      ensures !Fresh(old(cached), now) && env.query.Fail? ==>
                resp == ServerError(StatsErrorMessage) && cached == old(cached)
      ensures !Fresh(old(cached), now) && env.query.Pass? ==>
                var s := StatsOf(store.FindMany(IsCompleted), env, clock);
                resp == Served(s, false) && cached == Some(s)
    {
      if Fresh(cached, now) {
        return Served(cached.value, true);
      }
      var r := CalculateStats(store, env, clock);
      if r.Err? {
        return ServerError(StatsErrorMessage);
      }
      cached := Some(r.value);
      resp := Served(r.value, false);
    }
  }
}
