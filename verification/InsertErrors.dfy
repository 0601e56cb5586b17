/** How the insert loop ends and how long it sleeps, told from the texts of the errors alone: which of
    them name a network failure, and which of the two inserts is asked first. */
module InsertErrors {
  import opened Common
  import opened WriterBatch

  // ---- texts that name a network failure ----

  predicate NetworkSign(sign: string) {
    sign == "network" || sign == "connect" || sign == "connection refused" || sign == "dns" || sign == "timeout" ||
    sign == "broken pipe" || sign == "reset by peer" || sign == "eof" || sign == "os error" || sign == "tcp" ||
    sign == "io error"
  }

  /** The letter c or an upper-case form of it; k has two, with the Kelvin sign. */
  predicate SameLetter(c: char, d: char) {
    if 'A' <= d <= 'Z' then c as int == d as int + 32 else if d == '\U{212A}' then c == 'k' else c == d
  }

  /** The word in any mixture of upper and lower case. */
  predicate Spells(text: string, word: string) {
    |text| == |word| && forall i | 0 <= i < |word| :: SameLetter(word[i], text[i])
  }

  /** before + word + after, the word in any case. */
  predicate Frames(text: string, before: string, word: string, after: string, sign: string) {
    text == before + word + after && Spells(word, sign)
  }

  ghost predicate Mentions(text: string, sign: string) {
    exists before, word, after :: Frames(text, before, word, after, sign)
  }

  ghost predicate NamesNetwork(text: string) { exists sign | NetworkSign(sign) :: Mentions(text, sign) }

  lemma ContainedIsMentioned(text: string, sign: string)
    ensures Contains(Lower(text), sign) <==> Mentions(text, sign)
  {
    if Contains(Lower(text), sign) {
      var i :| 0 <= i <= |Lower(text)| && sign <= Lower(text)[i..];
      ContainedAt(text, sign, i);
    }
    if before, word, after :| Frames(text, before, word, after, sign) {
      FramedAt(text, before, word, after, sign);
    }
  }

  lemma ContainedAt(text: string, sign: string, i: nat)
    requires i <= |Lower(text)| && sign <= Lower(text)[i..]
    ensures Mentions(text, sign)
  {
    var n := i + |sign|;
    assert text == text[..i] + text[i..n] + text[n..];
    forall k | 0 <= k < |sign| ensures SameLetter(sign[k], text[i..n][k]) {
      assert sign[k] == Lower(text)[i..][k] == LowerChar(text[i + k]);
    }
    assert Frames(text, text[..i], text[i..n], text[n..], sign);
  }

  lemma FramedAt(text: string, before: string, word: string, after: string, sign: string)
    requires Frames(text, before, word, after, sign)
    ensures Contains(Lower(text), sign)
  {
    var rest := Lower(text)[|before|..];
    assert |rest| >= |sign|;
    forall k | 0 <= k < |sign| ensures sign[k] == rest[k] {
      assert text[|before| + k] == word[k] && SameLetter(sign[k], word[k]);
    }
    assert sign <= rest;
  }

  /** The writer takes an error for transient exactly when its text names a network failure. */
  lemma TransientExactly(text: string)
    ensures IsTransient(text) <==> NamesNetwork(text)
  {
    var signs := TRANSIENT_SIGNS;
    forall i | 0 <= i < |signs| ensures Contains(Lower(text), signs[i]) <==> Mentions(text, signs[i]) {
      ContainedIsMentioned(text, signs[i]);
    }
    if sign :| NetworkSign(sign) && Mentions(text, sign) {
      var i := SignAt(sign);
      assert signs[i] == sign;
    }
  }

  lemma SignAt(sign: string) returns (i: nat)
    requires NetworkSign(sign)
    ensures i < |TRANSIENT_SIGNS| && TRANSIENT_SIGNS[i] == sign
  {
    i := if sign == "network" then 0 else if sign == "connect" then 1 else if sign == "connection refused" then 2
         else if sign == "dns" then 3 else if sign == "timeout" then 4 else if sign == "broken pipe" then 5
         else if sign == "reset by peer" then 6 else if sign == "eof" then 7 else if sign == "os error" then 8
         else if sign == "tcp" then 9 else 10;
  }

  // ---- turns ----

  predicate Fails(t: Turn) { t.bodies.Rejected? || t.obs.Rejected? }

  /** The error of a failed turn: that of the body insert if it failed, whatever the other one said. */
  function Complaint(t: Turn): string
    requires Fails(t)
  {
    if t.bodies.Rejected? then t.bodies.message else t.obs.message
  }

  ghost predicate Network(t: Turn) { Fails(t) && NamesNetwork(Complaint(t)) }

  /** A failure that waiting will not mend. */
  ghost predicate Lasting(t: Turn) { Fails(t) && !NamesNetwork(Complaint(t)) }

  ghost function Lastings(turns: seq<Turn>): nat {
    if turns == [] then 0 else Lastings(turns[1..]) + if Lasting(turns[0]) then 1 else 0
  }

  lemma TurnIs(t: Turn)
    ensures Lasting(t) <==> IsPermanent(t)
    ensures Network(t) <==> IsTransientTurn(t)
    ensures Fails(t) <==> And(t.bodies, t.obs).Rejected?
  {
    if Fails(t) { TransientExactly(Complaint(t)); }
  }

  lemma {:induction false} LastingsArePermanents(turns: seq<Turn>)
    ensures Lastings(turns) == Permanents(turns)
  {
    if turns != [] {
      TurnIs(turns[0]);
      LastingsArePermanents(turns[1..]);
    }
  }

  // ---- how the loop ends ----

  /** The loop goes past the first n turns: all fail, none of them the third lasting failure, and shutdown does
      not fire. */
  ghost predicate GoesPast(turns: seq<Turn>, n: nat, failures: nat) {
    n <= |turns| && (forall i | 0 <= i < n :: Fails(turns[i]) && !turns[i].shutdown) &&
    Lastings(turns[..n]) + failures < 3
  }

  /** What turn n then does. */
  ghost predicate EndsAt(turns: seq<Turn>, n: nat, failures: nat, outcome: Outcome) {
    if n >= |turns| then outcome == StillTrying
    else if !Fails(turns[n]) then outcome == Success
    else if Lasting(turns[n]) && Lastings(turns[..n]) + failures == 2 then outcome == PermanentFailure
    else turns[n].shutdown && outcome == ShutDown
  }

  lemma OneTurnOfRetry(turns: seq<Turn>, failures: nat)
    requires turns != [] && failures < 3
    ensures var lasting := Lasting(turns[0]);
      Retry(turns, failures) ==
        if !Fails(turns[0]) then Success
        else if lasting && failures == 2 then PermanentFailure
        else if turns[0].shutdown then ShutDown
        else Retry(turns[1..], failures + if lasting then 1 else 0)
  {
    TurnIs(turns[0]);
  }

  lemma LastingsOneMore(turns: seq<Turn>, n: nat)
    requires turns != [] && n <= |turns[1..]|
    ensures Lastings(turns[..n + 1]) == Lastings(turns[1..][..n]) + if Lasting(turns[0]) then 1 else 0
  {
    assert turns[..n + 1][1..] == turns[1..][..n];
  }

  lemma GoesPastOneMore(turns: seq<Turn>, n: nat, failures: nat, outcome: Outcome)
    requires turns != [] && Fails(turns[0]) && !turns[0].shutdown
    requires var count := failures + if Lasting(turns[0]) then 1 else 0;
      GoesPast(turns[1..], n, count) && EndsAt(turns[1..], n, count, outcome)
    ensures GoesPast(turns, n + 1, failures) && EndsAt(turns, n + 1, failures, outcome)
  {
    LastingsOneMore(turns, n);
    forall i | 0 <= i < n + 1 ensures Fails(turns[i]) && !turns[i].shutdown {
      if i > 0 { assert turns[i] == turns[1..][i - 1]; }
    }
    assert n < |turns[1..]| ==> turns[n + 1] == turns[1..][n];
  }

  /** The loop goes on after a failure that is not the third lasting one, unless shutdown fires. */
  ghost predicate GoesOn(t: Turn, failures: nat) {
    Fails(t) && !t.shutdown && failures + (if Lasting(t) then 1 else 0) < 3
  }

  lemma StopsAtOnce(turns: seq<Turn>, failures: nat)
    requires failures < 3 && (turns == [] || !GoesOn(turns[0], failures))
    ensures GoesPast(turns, 0, failures) && EndsAt(turns, 0, failures, Retry(turns, failures))
  {
    assert turns[..0] == [];
    if turns != [] { OneTurnOfRetry(turns, failures); }
  }

  lemma {:induction false} RetryFrom(turns: seq<Turn>, failures: nat) returns (n: nat)
    requires failures < 3
    ensures GoesPast(turns, n, failures) && EndsAt(turns, n, failures, Retry(turns, failures))
    decreases |turns|
  {
    if turns == [] || !GoesOn(turns[0], failures) {
      StopsAtOnce(turns, failures);
      return 0;
    }
    OneTurnOfRetry(turns, failures);
    n := RetryFrom(turns[1..], failures + if Lasting(turns[0]) then 1 else 0);
    GoesPastOneMore(turns, n, failures, Retry(turns, failures));
    n := n + 1;
  }

  /** How the loop ends. It goes past n failures, at most two of them lasting; then a turn without a failure
      succeeds, the third lasting failure dead-letters the batch, and shutdown during a sleep stops the writer. */
  lemma RetryExactly(turns: seq<Turn>) returns (n: nat)
    ensures GoesPast(turns, n, 0) && EndsAt(turns, n, 0, Retry(turns, 0))
  {
    n := RetryFrom(turns, 0);
  }

  /** The sleep after a failed turn doubles with each lasting failure before it: from 200 ms for a network
      failure, and 200 then 400 ms for the first two lasting ones. */
  lemma WaitExactly(turns: seq<Turn>, i: nat)
    requires i < |turns| && Fails(turns[i]) && Lastings(turns[..i]) <= 2
    ensures Network(turns[i]) ==>
      Wait(turns, i) == if Lastings(turns[..i]) == 0 then 200 else if Lastings(turns[..i]) == 1 then 400 else 800
    ensures Lasting(turns[i]) && Lastings(turns[..i]) < 2 ==>
      Wait(turns, i) == if Lastings(turns[..i]) == 0 then 200 else 400
  {
    TurnIs(turns[i]);
    LastingsArePermanents(turns[..i]);
    PermanentsStep(turns, i);
    assert Pow2(1) == 2 && Pow2(2) == 4;
  }

  // ---- outages and bad batches ----

  lemma {:induction false} NoLastings(turns: seq<Turn>)
    requires forall i | 0 <= i < |turns| && Fails(turns[i]) :: Network(turns[i])
    ensures Lastings(turns) == 0
  {
    if turns != [] { NoLastings(turns[1..]); }
  }

  lemma NoLastingsBefore(turns: seq<Turn>, n: nat)
    requires n <= |turns| && forall i | 0 <= i < |turns| && Fails(turns[i]) :: Network(turns[i])
    ensures Lastings(turns[..n]) == 0
  {
    NoLastings(turns[..n]);
  }

  /** While every error names a network failure the batch is never given up, and every sleep takes 200 ms. */
  lemma OutageNeverDeadLetters(turns: seq<Turn>)
    requires forall i | 0 <= i < |turns| && Fails(turns[i]) :: Network(turns[i])
    ensures Retry(turns, 0) != PermanentFailure
    ensures forall i | 0 <= i < |turns| && Fails(turns[i]) :: Wait(turns, i) == 200
  {
    var n := RetryExactly(turns);
    NoLastingsBefore(turns, n);
    forall i | 0 <= i < |turns| && Fails(turns[i]) ensures Wait(turns, i) == 200 {
      NoLastingsBefore(turns, i);
      WaitExactly(turns, i);
    }
  }

  lemma {:induction false} OnlyLastings(turns: seq<Turn>)
    requires forall i | 0 <= i < |turns| :: Lasting(turns[i])
    ensures Lastings(turns) == |turns|
  {
    if turns != [] { OnlyLastings(turns[1..]); }
  }

  lemma {:induction false} LastingsPrefix(turns: seq<Turn>, m: nat, n: nat)
    requires m <= n <= |turns|
    ensures Lastings(turns[..m]) <= Lastings(turns[..n])
  {
    if m > 0 {
      assert turns[..m][1..] == turns[1..][..m - 1] && turns[..n][1..] == turns[1..][..n - 1];
      LastingsPrefix(turns[1..], m - 1, n - 1);
    } else {
      assert turns[..0] == [];
    }
  }

  lemma ThreeLastings(turns: seq<Turn>, n: nat)
    requires 3 <= |turns| && Lasting(turns[0]) && Lasting(turns[1]) && Lasting(turns[2]) && n <= |turns|
    ensures if n < 3 then Lastings(turns[..n]) == n else Lastings(turns[..n]) >= 3
  {
    var m := if n < 3 then n else 3;
    OnlyLastings(turns[..m]);
    LastingsPrefix(turns, m, n);
  }

  /** A batch whose first three errors name no network failure is dead-lettered, unless shutdown fires after
      the first or the second. */
  lemma BadBatchDeadLetters(turns: seq<Turn>)
    requires |turns| >= 3 && Lasting(turns[0]) && Lasting(turns[1]) && Lasting(turns[2])
    ensures Retry(turns, 0) == if turns[0].shutdown || turns[1].shutdown then ShutDown else PermanentFailure
  {
    var n := RetryExactly(turns);
    ThreeLastings(turns, n);
  }
}
