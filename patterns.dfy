/** Hand-written matchers for the two fixed regular expressions of the logger:

      ss5="(\d+.\d+.\d+.\d+)"     the client IP on the portal status page
      "result":"(\d)"             the result code in the portal's login reply

    Each takes the first match, as `Regex.Matches(body)[0]` does: the
    leftmost start position at which the pattern matches. The dots of the IP
    pattern are not escaped, so each stands for any character but a newline,
    and the engine's greedy backtracking over the `\d+` runs decides which
    group it reports when several fit at the same start. */
module Patterns {
  import opened Platform

  /** The `.` of a regular expression: anything but a newline. */
  predicate AnyChar(c: char) {
    c != '\n'
  }

  const IpPrefix: string := "ss5=\""
  const ResultPrefix: string := "\"result\":\""

  predicate DigitsBetween(s: string, i: nat, j: nat) {
    i <= j <= |s| && forall t :: i <= t < j ==> IsDigit(s[t])
  }

  /** The length of the longest run of digits starting at `i`, which is what a
      greedy `\d+` first tries. */
  function DigitRun(s: string, i: nat): (n: nat)
    requires i <= |s|
    ensures DigitsBetween(s, i, i + n)
    ensures i + n == |s| || !IsDigit(s[i + n])
    decreases |s| - i
  {
    if i < |s| && IsDigit(s[i]) then 1 + DigitRun(s, i + 1) else 0
  }

  /** s[i..m] is a non-empty digit run and s[m] is a character `.` accepts. */
  ghost predicate RunThenAny(s: string, i: nat, m: nat) {
    i < m < |s| && DigitsBetween(s, i, m) && AnyChar(s[m])
  }

  /** s[i..j] is `k` non-empty digit runs, each pair separated by exactly one
      character other than a newline: the text `\d+.\d+ ... .\d+` can match. */
  ghost predicate Runs(s: string, i: nat, k: nat, j: nat)
    decreases k
  {
    i < j <= |s| &&
    if k <= 1 then DigitsBetween(s, i, j)
    else exists m: nat :: i < m < j && RunThenAny(s, i, m) && Runs(s, m + 1, k - 1, j)
  }

  /** The text of a captured IP: four digit runs joined by single characters. */
  ghost predicate IpShaped(ip: string) {
    Runs(ip, 0, 4, |ip|)
  }

  /** The IP pattern matches at start `p` with its group spanning s[p + 5..j]. */
  ghost predicate IpCaptureAt(s: string, p: nat, j: nat) {
    p + |IpPrefix| <= |s| && s[p..p + |IpPrefix|] == IpPrefix &&
    Runs(s, p + |IpPrefix|, 4, j) && j < |s| && s[j] == '"'
  }

  ghost predicate IpMatchAt(s: string, p: nat) {
    exists j :: IpCaptureAt(s, p, j)
  }

  /** The backtracking engine matching `k` runs from `i` and then the closing
      quote: Some(j) is the end of the group it settles on. A final run is
      taken whole; an earlier run is tried at its longest first and shortened
      one digit at a time (TryRun) until the rest of the pattern matches. */
  function MatchRuns(s: string, i: nat, k: nat): (r: Option<nat>)
    requires i <= |s| && k >= 1
    ensures r.Some? ==> Runs(s, i, k, r.value) && r.value < |s| && s[r.value] == '"'
    decreases k, |s| - i + 1
  {
    var n := DigitRun(s, i);
    if k == 1 then
      if n > 0 && i + n < |s| && s[i + n] == '"' then Some(i + n) else None
    else
      TryRun(s, i, n, k)
  }

  /** Backtracking over the length of the first of `k` runs: n, n - 1, ..., 1. */
  function TryRun(s: string, i: nat, n: nat, k: nat): (r: Option<nat>)
    requires DigitsBetween(s, i, i + n) && k >= 2
    ensures r.Some? ==> Runs(s, i, k, r.value) && r.value < |s| && s[r.value] == '"'
    decreases k, n
  {
    if n == 0 then None
    else if i + n < |s| && AnyChar(s[i + n]) && MatchRuns(s, i + n + 1, k - 1).Some? then
      assert RunThenAny(s, i, i + n);
      MatchRuns(s, i + n + 1, k - 1)
    else
      TryRun(s, i, n - 1, k)
  }

  /** Backtracking is complete: if any split of the text fits, the engine finds one. */
  lemma {:induction false} MatchRunsComplete(s: string, i: nat, k: nat, j: nat)
    requires i <= |s| && k >= 1 && Runs(s, i, k, j) && j < |s| && s[j] == '"'
    ensures MatchRuns(s, i, k).Some?
    decreases k
  {
    var n := DigitRun(s, i);
    if k == 1 {
      assert n == j - i;
    } else {
      var m: nat :| i < m < j && RunThenAny(s, i, m) && Runs(s, m + 1, k - 1, j);
      MatchRunsComplete(s, m + 1, k - 1, j);
      assert m - i <= n;
      TryRunFinds(s, i, n, k, m);
    }
  }

  lemma {:induction false} TryRunFinds(s: string, i: nat, n: nat, k: nat, m: nat)
    requires DigitsBetween(s, i, i + n) && k >= 2
    requires i < m <= i + n && RunThenAny(s, i, m) && MatchRuns(s, m + 1, k - 1).Some?
    ensures TryRun(s, i, n, k).Some?
    decreases n
  {
    if !(i + n < |s| && AnyChar(s[i + n]) && MatchRuns(s, i + n + 1, k - 1).Some?) {
      TryRunFinds(s, i, n - 1, k, m);
    }
  }

  /** From `i`, `k` digit runs joined by single characters and then the
      closing quote can match. */
  ghost predicate Completes(s: string, i: nat, k: nat) {
    exists j: nat :: Runs(s, i, k, j) && j < |s| && s[j] == '"'
  }

  /** The group end .NET's backtracking settles on, stated on the pattern
      alone: the last run is followed by the quote, and each earlier run is
      the longest one after which the rest of the pattern still matches. */
  ghost predicate GreedyEnd(s: string, i: nat, k: nat, j: nat)
    decreases k
  {
    if k <= 1 then i < j < |s| && DigitsBetween(s, i, j) && s[j] == '"'
    else exists m: nat :: LongestFirstRun(s, i, k, m) && GreedyEnd(s, m + 1, k - 1, j)
  }

  /** s[i..m] is the longest first run, of `k` runs, after which the rest of
      the pattern can still match. */
  ghost predicate LongestFirstRun(s: string, i: nat, k: nat, m: nat)
    requires k >= 2
  {
    RunThenAny(s, i, m) && Completes(s, m + 1, k - 1) &&
    forall m': nat {:trigger RunThenAny(s, i, m')} :: m < m' && RunThenAny(s, i, m') ==> !Completes(s, m' + 1, k - 1)
  }

  /** The first run a greedy end of several runs was reached through. */
  lemma GreedyFirstRun(s: string, i: nat, k: nat, j: nat) returns (m: nat)
    requires k >= 2 && GreedyEnd(s, i, k, j)
    ensures LongestFirstRun(s, i, k, m) && GreedyEnd(s, m + 1, k - 1, j)
  {
    m :| LongestFirstRun(s, i, k, m) && GreedyEnd(s, m + 1, k - 1, j);
  }

  lemma LongestFirstRunUnique(s: string, i: nat, k: nat, m1: nat, m2: nat)
    requires k >= 2 && LongestFirstRun(s, i, k, m1) && LongestFirstRun(s, i, k, m2)
    ensures m1 == m2
  {
  }

  /** The greedy end is a match. */
  lemma {:induction false} GreedyEndMatches(s: string, i: nat, k: nat, j: nat)
    requires k >= 1 && GreedyEnd(s, i, k, j)
    ensures Runs(s, i, k, j) && j < |s| && s[j] == '"'
    decreases k
  {
    if k > 1 {
      var m := GreedyFirstRun(s, i, k, j);
      GreedyEndMatches(s, m + 1, k - 1, j);
      assert i < m < j && RunThenAny(s, i, m) && Runs(s, m + 1, k - 1, j);
    }
  }

  /** A last run is closed by the first quote after it: it cannot close at
      two places, since the first of them is inside the run of the other. */
  lemma LastRunUnique(s: string, i: nat, j1: nat, j2: nat)
    requires i < j1 < |s| && DigitsBetween(s, i, j1) && s[j1] == '"'
    requires i < j2 < |s| && DigitsBetween(s, i, j2) && s[j2] == '"'
    ensures j1 == j2
  {
  }

  /** At most one group end has the greedy priority. */
  lemma {:induction false} GreedyEndUnique(s: string, i: nat, k: nat, j1: nat, j2: nat)
    requires k >= 1 && GreedyEnd(s, i, k, j1) && GreedyEnd(s, i, k, j2)
    ensures j1 == j2
    decreases k
  {
    if k <= 1 {
      LastRunUnique(s, i, j1, j2);
    } else {
      var m1 := GreedyFirstRun(s, i, k, j1);
      var m2 := GreedyFirstRun(s, i, k, j2);
      LongestFirstRunUnique(s, i, k, m1, m2);
      GreedyEndUnique(s, m1 + 1, k - 1, j1, j2);
    }
  }

  /** The engine reports the greedy end. */
  lemma {:induction false} MatchRunsGreedy(s: string, i: nat, k: nat)
    requires i <= |s| && k >= 1
    ensures MatchRuns(s, i, k).Some? ==> GreedyEnd(s, i, k, MatchRuns(s, i, k).value)
    decreases k, |s| - i + 1
  {
    var n := DigitRun(s, i);
    if k > 1 {
      TryRunGreedy(s, i, n, k);
    }
  }

  /** Backtracking from run length `n` down reports the greedy end, given
      that no first run longer than `n` lets the rest match. */
  lemma {:induction false} TryRunGreedy(s: string, i: nat, n: nat, k: nat)
    requires DigitsBetween(s, i, i + n) && k >= 2
    requires forall m': nat :: i + n < m' && RunThenAny(s, i, m') ==> !Completes(s, m' + 1, k - 1)
    ensures TryRun(s, i, n, k).Some? ==> GreedyEnd(s, i, k, TryRun(s, i, n, k).value)
    decreases k, n
  {
    if n > 0 {
      if i + n < |s| && AnyChar(s[i + n]) && MatchRuns(s, i + n + 1, k - 1).Some? {
        assert TryRun(s, i, n, k) == MatchRuns(s, i + n + 1, k - 1);
        MatchRunsGreedy(s, i + n + 1, k - 1);
        FirstRunFound(s, i, n, k, MatchRuns(s, i + n + 1, k - 1).value);
      } else {
        assert TryRun(s, i, n, k) == TryRun(s, i, n - 1, k);
        FirstRunRejected(s, i, n, k);
        TryRunGreedy(s, i, n - 1, k);
      }
    }
  }

  /** The first run length at which the rest matches, with every longer one
      failing, gives the greedy end of the rest. */
  lemma FirstRunFound(s: string, i: nat, n: nat, k: nat, j: nat)
    requires DigitsBetween(s, i, i + n) && n > 0 && k >= 2 && i + n < |s| && AnyChar(s[i + n])
    requires forall m': nat :: i + n < m' && RunThenAny(s, i, m') ==> !Completes(s, m' + 1, k - 1)
    requires GreedyEnd(s, i + n + 1, k - 1, j)
    ensures GreedyEnd(s, i, k, j)
  {
    GreedyEndMatches(s, i + n + 1, k - 1, j);
    assert RunThenAny(s, i, i + n);
    assert Completes(s, i + n + 1, k - 1);
    assert LongestFirstRun(s, i, k, i + n);
  }

  /** A run length the engine rejects joins the lengths that let nothing match. */
  lemma FirstRunRejected(s: string, i: nat, n: nat, k: nat)
    requires DigitsBetween(s, i, i + n) && n > 0 && k >= 2
    requires forall m': nat :: i + n < m' && RunThenAny(s, i, m') ==> !Completes(s, m' + 1, k - 1)
    requires !(i + n < |s| && AnyChar(s[i + n]) && MatchRuns(s, i + n + 1, k - 1).Some?)
    ensures forall m': nat :: i + n - 1 < m' && RunThenAny(s, i, m') ==> !Completes(s, m' + 1, k - 1)
  {
    forall m': nat | i + n - 1 < m' && RunThenAny(s, i, m')
      ensures !Completes(s, m' + 1, k - 1)
    {
      if m' == i + n && Completes(s, m' + 1, k - 1) {
        var j: nat :| Runs(s, m' + 1, k - 1, j) && j < |s| && s[j] == '"';
        MatchRunsComplete(s, m' + 1, k - 1, j);
      }
    }
  }

  /** The engine's attempt at start position `p`. */
  function IpMatchFrom(s: string, p: nat): (r: Option<nat>)
    ensures r.Some? ==> IpCaptureAt(s, p, r.value)
  {
    if p + |IpPrefix| <= |s| && s[p..p + |IpPrefix|] == IpPrefix then
      MatchRuns(s, p + |IpPrefix|, 4)
    else
      None
  }

  lemma IpMatchFromComplete(s: string, p: nat, j: nat)
    ensures IpCaptureAt(s, p, j) ==> IpMatchFrom(s, p).Some?
  {
    if IpCaptureAt(s, p, j) {
      MatchRunsComplete(s, p + |IpPrefix|, 4, j);
    }
  }

  /** The first start position at or after `from` where the engine succeeds. */
  function FirstIpStart(s: string, from: nat): (r: Option<nat>)
    decreases |s| - from
  {
    if from >= |s| then None
    else if IpMatchFrom(s, from).Some? then Some(from)
    else FirstIpStart(s, from + 1)
  }

  /** The scan stops at the first start where the engine succeeds, and runs
      off the end only when it succeeds nowhere. */
  lemma {:induction false} FirstIpStartSpec(s: string, from: nat)
    ensures FirstIpStart(s, from).Some? ==>
              from <= FirstIpStart(s, from).value && IpMatchFrom(s, FirstIpStart(s, from).value).Some?
    ensures FirstIpStart(s, from).Some? ==>
              forall q :: from <= q < FirstIpStart(s, from).value ==> IpMatchFrom(s, q).None?
    ensures FirstIpStart(s, from).None? ==> forall q :: from <= q < |s| ==> IpMatchFrom(s, q).None?
    decreases |s| - from
  {
    if from < |s| && IpMatchFrom(s, from).None? {
      var r := FirstIpStart(s, from + 1);
      assert FirstIpStart(s, from) == r;
      FirstIpStartSpec(s, from + 1);
      forall q | from <= q < (if r.Some? then r.value else |s|)
        ensures IpMatchFrom(s, q).None?
      {
        if q == from {
        }
      }
    }
  }

  /** A start position with a match is the first one when no earlier one has any. */
  ghost predicate IsFirstIpMatch(s: string, p: nat) {
    IpMatchAt(s, p) && forall q: nat :: q < p ==> !IpMatchAt(s, q)
  }

  /** `IpRegex().Matches(body)[0].Groups[1]`: the group of the first match, or
      None where indexing the empty match collection throws. */
  function FirstIp(body: string): Option<string> {
    FirstIpStartSpec(body, 0);
    match FirstIpStart(body, 0)
    case None => None
    case Some(p) =>
      var j := IpMatchFrom(body, p).value;
      CaptureIsIpShaped(body, p, j);
      Some(body[p + |IpPrefix|..j])
  }

  /** FirstIp fails exactly when the pattern matches nowhere; otherwise it
      returns the capture of the leftmost match, which has the shape of four
      digit runs separated by single characters. */
  lemma FirstIpSpec(body: string)
    ensures FirstIp(body).None? <==> forall p :: !IpMatchAt(body, p)
    ensures FirstIp(body).Some? ==>
      exists p: nat, j: nat :: IsFirstIpMatch(body, p) && IpCaptureAt(body, p, j) &&
                               FirstIp(body).value == body[p + |IpPrefix|..j]
    ensures FirstIp(body).Some? ==> IpShaped(FirstIp(body).value)
  {
    FirstIpStartIsLeftmost(body);
    FirstIpStartSpec(body, 0);
    match FirstIpStart(body, 0)
    case None =>
    case Some(p) =>
      var j := IpMatchFrom(body, p).value;
      CaptureIsIpShaped(body, p, j);
  }

  /** The IP pattern at start `p` ends its group at `j` by greedy priority. */
  ghost predicate GreedyIpCapture(s: string, p: nat, j: nat) {
    GreedyEnd(s, p + |IpPrefix|, 4, j)
  }

  /** Of the group ends that fit at the leftmost start, FirstIp reports the
      one .NET's greedy backtracking prefers. */
  lemma FirstIpIsGreedy(body: string)
    ensures FirstIp(body).Some? ==>
      exists p: nat, j: nat :: IsFirstIpMatch(body, p) && GreedyIpCapture(body, p, j) &&
                               FirstIp(body).value == body[p + |IpPrefix|..j]
  {
    FirstIpStartIsLeftmost(body);
    FirstIpStartSpec(body, 0);
    var first := FirstIpStart(body, 0);
    if first.Some? {
      var p0 := first.value;
      var j0 := IpMatchFrom(body, p0).value;
      assert MatchRuns(body, p0 + |IpPrefix|, 4) == Some(j0);
      MatchRunsGreedy(body, p0 + |IpPrefix|, 4);
      assert IsFirstIpMatch(body, p0) && GreedyIpCapture(body, p0, j0) &&
             FirstIp(body).value == body[p0 + |IpPrefix|..j0];
    }
  }

  /** The leftmost start and the greedy end alone fix what FirstIp returns:
      no other group end that fits there can be reported. */
  lemma GreedyCaptureFixesFirstIp(body: string, p: nat, j: nat)
    requires IsFirstIpMatch(body, p) && GreedyIpCapture(body, p, j)
    ensures p + |IpPrefix| <= j <= |body| && FirstIp(body) == Some(body[p + |IpPrefix|..j])
  {
    FirstIpStartIsLeftmost(body);
    FirstIpStartSpec(body, 0);
    var p0 := FirstIpStart(body, 0).value;
    assert p == p0;
    var j0 := IpMatchFrom(body, p0).value;
    assert MatchRuns(body, p0 + |IpPrefix|, 4) == Some(j0);
    MatchRunsGreedy(body, p0 + |IpPrefix|, 4);
    GreedyEndUnique(body, p0 + |IpPrefix|, 4, j, j0);
    GreedyEndMatches(body, p + |IpPrefix|, 4, j);
  }

  lemma CaptureIsIpShaped(s: string, p: nat, j: nat)
    requires IpCaptureAt(s, p, j)
    ensures p + |IpPrefix| <= j && IpShaped(s[p + |IpPrefix|..j])
  {
    RunsSlice(s, p + |IpPrefix|, p + |IpPrefix|, 4, j);
  }

  /** The engine's leftmost start is exactly the leftmost start of a match. */
  lemma FirstIpStartIsLeftmost(s: string)
    ensures FirstIpStart(s, 0).None? <==> forall p :: !IpMatchAt(s, p)
    ensures FirstIpStart(s, 0).Some? ==> IsFirstIpMatch(s, FirstIpStart(s, 0).value)
  {
    FirstIpStartSpec(s, 0);
    forall q: nat | IpMatchAt(s, q)
      ensures q < |s| && IpMatchFrom(s, q).Some?
    {
      var j :| IpCaptureAt(s, q, j);
      IpMatchFromComplete(s, q, j);
    }
    var r := FirstIpStart(s, 0);
    if r.Some? {
      var p := r.value;
      var j := IpMatchFrom(s, p).value;
      assert IpCaptureAt(s, p, j);
      assert IpMatchAt(s, p);
    }
  }

  /** A run structure read inside a longer text is the same structure in the
      slice that holds it. */
  lemma {:induction false} RunsSlice(s: string, i0: nat, i: nat, k: nat, j: nat)
    requires i0 <= i && Runs(s, i, k, j)
    ensures Runs(s[i0..j], i - i0, k, j - i0)
    decreases k
  {
    var t := s[i0..j];
    if k <= 1 {
      assert DigitsBetween(t, i - i0, j - i0);
    } else {
      var m: nat :| i < m < j && RunThenAny(s, i, m) && Runs(s, m + 1, k - 1, j);
      RunsSlice(s, i0, m + 1, k - 1, j);
      assert RunThenAny(t, i - i0, m - i0);
    }
  }

  /** A captured IP starts and ends with a digit; in particular it is never the
      "-1" that the single-shot entry point uses as its failure sentinel. */
  lemma {:induction false} IpShapedEnds(ip: string)
    requires IpShaped(ip)
    ensures IsDigit(ip[0]) && IsDigit(ip[|ip| - 1]) && ip != "-1"
  {
    var m: nat :| 0 < m < |ip| && RunThenAny(ip, 0, m) && Runs(ip, m + 1, 3, |ip|);
    LastRunDigit(ip, m + 1, 3);
  }

  lemma {:induction false} LastRunDigit(s: string, i: nat, k: nat)
    requires Runs(s, i, k, |s|)
    ensures |s| > 0 && IsDigit(s[|s| - 1])
    decreases k
  {
    if k > 1 {
      var m: nat :| i < m < |s| && RunThenAny(s, i, m) && Runs(s, m + 1, k - 1, |s|);
      LastRunDigit(s, m + 1, k - 1);
    }
  }

  /** The result-code pattern matches at start `p`; its group is s[p + 10]. */
  predicate ResultMatchAt(s: string, p: nat) {
    p + |ResultPrefix| + 2 <= |s| && s[p..p + |ResultPrefix|] == ResultPrefix &&
    IsDigit(s[p + |ResultPrefix|]) && s[p + |ResultPrefix| + 1] == '"'
  }

  function FirstResultStart(s: string, from: nat): (r: Option<nat>)
    decreases |s| - from
  {
    if from + |ResultPrefix| + 2 > |s| then None
    else if ResultMatchAt(s, from) then Some(from)
    else FirstResultStart(s, from + 1)
  }

  /** The scan stops at the first start of a result match, and runs off the
      end only when there is none. */
  lemma {:induction false} FirstResultStartSpec(s: string, from: nat)
    ensures FirstResultStart(s, from).Some? ==>
              from <= FirstResultStart(s, from).value && ResultMatchAt(s, FirstResultStart(s, from).value)
    ensures FirstResultStart(s, from).Some? ==>
              forall q :: from <= q < FirstResultStart(s, from).value ==> !ResultMatchAt(s, q)
    ensures FirstResultStart(s, from).None? ==> forall q :: from <= q ==> !ResultMatchAt(s, q)
    decreases |s| - from
  {
    if from + |ResultPrefix| + 2 <= |s| && !ResultMatchAt(s, from) {
      FirstResultStartSpec(s, from + 1);
    }
  }

  /** `ReturnCodeRegex().Matches(body)[0].Groups[1]`: the digit of the first
      `"result":"<digit>"`, or None where indexing the empty collection throws. */
  function ResultCode(body: string): (c: Option<char>)
    ensures c.Some? ==> IsDigit(c.value)
  {
    FirstResultStartSpec(body, 0);
    match FirstResultStart(body, 0)
    case None => None
    case Some(p) => Some(body[p + |ResultPrefix|])
  }

  /** ResultCode fails exactly when the pattern matches nowhere; otherwise it
      returns the digit of the leftmost match. */
  lemma ResultCodeSpec(body: string)
    ensures ResultCode(body).None? <==> forall p :: !ResultMatchAt(body, p)
    ensures ResultCode(body).Some? ==>
      exists p: nat :: ResultMatchAt(body, p) && ResultCode(body).value == body[p + |ResultPrefix|] &&
                       forall q: nat :: q < p ==> !ResultMatchAt(body, q)
  {
    FirstResultStartSpec(body, 0);
  }
}
