/** Bisecting commits for the first one whose replay fails (cmd_bisect). */
module Bisects {
  import opened Common

  /** Does the n-th CI run, made at this commit, pass? Anything goes: runs may be flaky. */
  type Ci = (string, nat) -> bool

  /** Every run at a commit gives the same answer. */
  ghost predicate Stable(ci: Ci) {
    forall c, i, j :: ci(c, i) == ci(c, j)
  }

  /** Some run among these passed: all that is asked of a good commit. */
  predicate SomePass(ci: Ci, commit: string, from: nat, n: nat) {
    exists i | from <= i < from + n :: ci(commit, i)
  }

  /** test_commit_reliable_n, whose first run has number from: a commit is bad only when all n runs
      fail. It always makes all n. */
  method TestCommit(ci: Ci, commit: string, n: nat, from: nat) returns (passes: bool, next: nat)
    ensures passes <==> SomePass(ci, commit, from, n)
    ensures n == 3 ==> (passes <==> ci(commit, from) || ci(commit, from + 1) || ci(commit, from + 2))
    ensures next == from + n
  {
    var passed, failed := 0, 0;
    next := from;
    for k := 0 to n
      invariant next == from + k && passed + failed == k
      invariant failed == k <==> !SomePass(ci, commit, from, k)
      invariant failed < n || n == 0
    {
      var ok := ci(commit, next);
      next := next + 1;
      if ok { passed := passed + 1; } else { failed := failed + 1; }
      assert SomePass(ci, commit, from, k + 1) <==> SomePass(ci, commit, from, k) || ok;
      if failed == n { return false, next; }
      if passed == n { assert ci(commit, from + k); return true, next; }
    }
    passes := failed < n;
  }

  // ---- how many probes ----

  /** The least k with 2^k >= n. */
  function CeilLog2(n: nat): nat {
    if n <= 1 then 0 else 1 + CeilLog2((n + 1) / 2)
  }

  lemma {:induction false} CeilLog2IsCeiling(n: nat)
    requires n >= 1
    ensures Pow2(CeilLog2(n)) >= n
    ensures n > 1 ==> Pow2(CeilLog2(n) - 1) < n
  {
    if n > 1 {
      CeilLog2IsCeiling((n + 1) / 2);
      if (n + 1) / 2 > 1 { assert Pow2(CeilLog2(n) - 1) == 2 * Pow2(CeilLog2((n + 1) / 2) - 1); }
    }
  }

  lemma {:induction false} CeilLog2Monotone(m: nat, n: nat)
    requires m <= n
    ensures CeilLog2(m) <= CeilLog2(n)
  {
    if m > 1 { CeilLog2Monotone((m + 1) / 2, (n + 1) / 2); }
  }

  // ---- the search ----

  /** Three runs in a row, all before run number now, judged the commit bad. */
  ghost predicate JudgedBad(ci: Ci, commit: string, now: nat) {
    exists from: nat :: from + 3 <= now && !SomePass(ci, commit, from, 3)
  }

  ghost predicate JudgedGood(ci: Ci, commit: string, now: nat) {
    exists from: nat :: from + 3 <= now && SomePass(ci, commit, from, 3)
  }

  /** What the search has found of commit hi: it was judged bad, or is the last, and the one before it
      was judged good, or is the first. */
  ghost predicate Between(ci: Ci, candidates: seq<string>, hi: nat, now: nat) {
    1 <= hi < |candidates| &&
    (hi == 1 || JudgedGood(ci, candidates[hi - 1], now)) &&
    (hi == |candidates| - 1 || JudgedBad(ci, candidates[hi], now))
  }

  /** The loop: lo stays good (or the given good end), hi stays bad (or the last commit). */
  method Search(ci: Ci, candidates: seq<string>, from: nat) returns (hi: nat, next: nat, probes: nat)
    requires |candidates| >= 2
    ensures Between(ci, candidates, hi, next)
    ensures next == from + 3 * probes && probes <= CeilLog2(|candidates| - 1)
  {
    var lo := 0;
    hi, next, probes := |candidates| - 1, from, 0;
    while lo + 1 < hi
      invariant 0 <= lo < hi < |candidates|
      invariant lo == 0 || JudgedGood(ci, candidates[lo], next)
      invariant hi == |candidates| - 1 || JudgedBad(ci, candidates[hi], next)
      invariant next == from + 3 * probes
      invariant probes + CeilLog2(hi - lo) <= CeilLog2(|candidates| - 1)
      decreases hi - lo
    {
      var mid := (lo + hi) / 2;
      var width := hi - lo;
      var passes, later := TestCommit(ci, candidates[mid], 3, next);
      if passes { lo := mid; } else { hi := mid; }
      next, probes := later, probes + 1;
      CeilLog2Monotone(hi - lo, (width + 1) / 2);
    }
  }

  // ---- the range ----

  /** Two hashes name the same commit when one is a prefix of the other. */
  predicate Names(h: string, g: string) { h <= g || g <= h }

  function Find(log: seq<string>, hash: string): (r: Option<nat>)
    ensures r.Some? ==> r.value < |log| && Names(log[r.value], hash)
    ensures r.Some? ==> forall j | 0 <= j < r.value :: !Names(log[j], hash)
    ensures r.None? ==> forall j | 0 <= j < |log| :: !Names(log[j], hash)
  {
    if log == [] then None
    else if Names(log[0], hash) then Some(0)
    else match Find(log[1..], hash) case Some(i) => Some(i + 1) case None => None
  }

  function Reverse(s: seq<string>): (r: seq<string>)
    ensures |r| == |s| && forall i | 0 <= i < |s| :: r[i] == s[|s| - 1 - i]
  {
    if s == [] then [] else Reverse(s[1..]) + [s[0]]
  }

  datatype Result =
    | NoCommits
    | SameEnds
    | GoodNotFound
    | Reported(index: nat, commit: string)
    | Unconfirmed

  /** The commits searched, oldest first, when the good one is at this place in the log. */
  function Candidates(log: seq<string>, good: nat): seq<string>
    requires good < |log|
  {
    Reverse(log[..good + 1])
  }

  /** Hashes of one length, all different, as git log lists them. */
  predicate GitLog(log: seq<string>) {
    (forall i | 0 <= i < |log| :: |log[i]| == |log[0]|) && forall i, j | 0 <= i < j < |log| :: log[i] != log[j]
  }

  lemma Later(ci: Ci, commit: string, now: nat, later: nat)
    requires now <= later
    ensures JudgedGood(ci, commit, now) ==> JudgedGood(ci, commit, later)
    ensures JudgedBad(ci, commit, now) ==> JudgedBad(ci, commit, later)
  {}

  /** With stable runs, one pass makes a commit good and never judged bad. */
  lemma StablePass(ci: Ci, commit: string, from: nat, n: nat)
    requires SomePass(ci, commit, from, n)
    ensures Stable(ci) ==> ci(commit, 0) && !JudgedBad(ci, commit, from)
  {
    if Stable(ci) {
      var i :| from <= i < from + n && ci(commit, i);
      assert ci(commit, 0);
      forall f: nat ensures SomePass(ci, commit, f, 3) { assert ci(commit, f); }
    }
  }

  /** The three runs that confirm the commit found. */
  lemma Confirmed(ci: Ci, candidates: seq<string>, hi: nat, from: nat)
    requires Between(ci, candidates, hi, from)
    ensures Between(ci, candidates, hi, from + 3)
    ensures !SomePass(ci, candidates[hi], from, 3) ==> JudgedBad(ci, candidates[hi], from + 3)
    ensures Stable(ci) && SomePass(ci, candidates[hi], from, 3) ==>
      hi == |candidates| - 1 && ci(candidates[hi], 0)
  {
    Later(ci, candidates[hi], from, from + 3);
    Later(ci, candidates[hi - 1], from, from + 3);
    if SomePass(ci, candidates[hi], from, 3) { StablePass(ci, candidates[hi], from, 3); }
  }

  /** The candidates searched and the commit found confirmed: the first run is at the good end, the
      last three at the commit found. */
  method SearchRange(ci: Ci, candidates: seq<string>) returns (r: Result, runs: nat, probes: nat)
    requires |candidates| >= 2
    ensures r.Reported? || r.Unconfirmed?
    ensures runs == 1 + 3 * (probes + 1) && probes <= CeilLog2(|candidates| - 1)
    ensures r.Reported? ==> Between(ci, candidates, r.index, runs) && JudgedBad(ci, candidates[r.index], runs)
    ensures r.Reported? ==> r.commit == candidates[r.index] && !SomePass(ci, r.commit, runs - 3, 3)
    ensures r.Unconfirmed? ==>
      exists i: nat :: Between(ci, candidates, i, runs) && SomePass(ci, candidates[i], runs - 3, 3)
    ensures Stable(ci) && !ci(candidates[|candidates| - 1], 0) ==> r.Reported?
  {
    var _, next := TestCommit(ci, candidates[0], 1, 0);
    var hi, later, n := Search(ci, candidates, next);
    var passes, last := TestCommit(ci, candidates[hi], 3, later);
    runs, probes := last, n;
    Confirmed(ci, candidates, hi, later);
    r := if passes then Unconfirmed else Reported(hi, candidates[hi]);
  }

  lemma NamesByLength(log: seq<string>, good: string)
    requires GitLog(log) && log != [] && |good| == |log[0]|
    ensures forall i | 0 <= i < |log| :: Names(log[i], good) <==> log[i] == good
  {}

  /** Where the good commit is, and the range searched for it. */
  lemma Located(log: seq<string>, good: string)
    requires GitLog(log) && log != [] && |good| == |log[0]|
    ensures Find(log, good).Some? <==> good in log
    ensures Find(log, good).Some? ==>
      var k := Find(log, good).value;
      var cs := Candidates(log, k);
      log[k] == good && |cs| == k + 1 && cs[0] == good && forall i | 0 <= i <= k :: cs[i] == log[k - i]
  {
    NamesByLength(log, good);
  }

  /** The whole command: log is newest first, good is the resolved good commit, or the oldest when
      none was given. */
  method Bisect(ci: Ci, log: seq<string>, good: string) returns (r: Result, runs: nat, probes: nat)
    requires GitLog(log) && (log != [] ==> |good| == |log[0]|)
    ensures r.NoCommits? <==> log == []
    ensures r.SameEnds? <==> log != [] && good == log[0]
    ensures r.GoodNotFound? <==> log != [] && good !in log
    ensures r.Reported? ==>
      var g := Find(log, good);
      g.Some? && log[g.value] == good && g.value >= 1 &&
      var cs := Candidates(log, g.value);
      Between(ci, cs, r.index, runs) && JudgedBad(ci, cs[r.index], runs) &&
      r.commit == cs[r.index] == log[g.value - r.index] && |cs| == g.value + 1 &&
      forall i | 0 <= i < |cs| :: cs[i] == log[g.value - i]
    ensures r.Reported? ==> runs >= 3 && !SomePass(ci, r.commit, runs - 3, 3)
    ensures r.Unconfirmed? ==>
      good in log && Find(log, good).Some? && runs >= 3 &&
      var cs := Candidates(log, Find(log, good).value);
      exists i: nat :: Between(ci, cs, i, runs) && SomePass(ci, cs[i], runs - 3, 3)
    ensures r.Reported? || r.Unconfirmed? ==>
      runs == 1 + 3 * (probes + 1) && probes <= CeilLog2(Find(log, good).value)
    ensures Stable(ci) && good in log && good != log[0] && !ci(log[0], 0) ==> r.Reported?
  {
    runs, probes := 0, 0;
    if log == [] { return NoCommits, 0, 0; }
    if good == log[0] { return SameEnds, 0, 0; }
    var place := Find(log, good);
    Located(log, good);
    if place.None? { return GoodNotFound, 0, 0; }
    r, runs, probes := SearchRange(ci, Candidates(log, place.value));
  }

  /** With stable runs a judgement is the verdict. */
  lemma StableJudgement(ci: Ci, commit: string, now: nat)
    requires Stable(ci)
    ensures JudgedBad(ci, commit, now) ==> !ci(commit, 0)
    ensures JudgedGood(ci, commit, now) ==> ci(commit, 0)
  {
    if JudgedBad(ci, commit, now) {
      var f: nat :| f + 3 <= now && !SomePass(ci, commit, f, 3);
      assert !ci(commit, f);
    }
    if JudgedGood(ci, commit, now) {
      var f: nat :| f + 3 <= now && SomePass(ci, commit, f, 3);
      var i :| f <= i < f + 3 && ci(commit, i);
    }
  }

  /** Once a commit is bad, every later one is. */
  predicate Monotone(ci: Ci, cs: seq<string>) {
    forall i, j | 0 <= i < j < |cs| :: !ci(cs[i], 0) ==> !ci(cs[j], 0)
  }

  /** For stable verdicts, monotone or not, the reported commit is bad and the one before it is
      good or is the given good end; if they are monotone and that end is good, it is the first
      bad commit. */
  lemma ReportedIsBoundary(ci: Ci, cs: seq<string>, index: nat, runs: nat)
    requires Stable(ci) && 1 <= index < |cs|
    requires JudgedBad(ci, cs[index], runs) && (index == 1 || JudgedGood(ci, cs[index - 1], runs))
    ensures !ci(cs[index], 0) && (index == 1 || ci(cs[index - 1], 0))
    ensures Monotone(ci, cs) && ci(cs[0], 0) ==> forall j | 0 <= j < |cs| :: ci(cs[j], 0) <==> j < index
  {
    StableJudgement(ci, cs[index], runs);
    StableJudgement(ci, cs[index - 1], runs);
  }
}
