// Exponential backoff in front of the password exchange. Times are real numbers of seconds
// on a clock that does not go back.
module RateLimiter {
  import opened Common

  // One limit per workflow and client.
  datatype Key = Key(workflow: Id, client: string)

  function Power2(n: nat): (p: int)
    ensures p >= 1
  {
    if n == 0 then 1 else 2 * Power2(n - 1)
  }

  // The pause after the given number of consecutive failures.
  function Backoff(base: real, max: real, failures: nat): real
    requires failures >= 1
  {
    var pause := base * Power2(failures - 1) as real;
    if pause < max then pause else max
  }

  // ---- the limiter ------------------------------------------------------------------------------

  datatype Limits = Limits(blockedUntil: map<Key, real>, attempts: map<Key, nat>)

  const NO_LIMITS := Limits(map[], map[])

  function FailuresOf(l: Limits, key: Key): nat {
    if key in l.attempts then l.attempts[key] else 0
  }

  function BlockedUntil(l: Limits, key: Key): real {
    if key in l.blockedUntil then l.blockedUntil[key] else 0.0
  }

  predicate Clear(l: Limits, key: Key) {
    key !in l.attempts && key !in l.blockedUntil
  }

  predicate SameAt(l: Limits, l': Limits, key: Key) {
    && (key in l.attempts <==> key in l'.attempts) && FailuresOf(l, key) == FailuresOf(l', key)
    && (key in l.blockedUntil <==> key in l'.blockedUntil) && BlockedUntil(l, key) == BlockedUntil(l', key)
  }

  class Limiter {
    const base: real
    const max: real
    var blockedUntil: map<Key, real>
    var attempts: map<Key, nat>

    constructor (base: real, max: real)
      ensures this.base == base && this.max == max && State() == NO_LIMITS
    {
      this.base, this.max := base, max;
      blockedUntil, attempts := map[], map[];
    }

    function State(): Limits
      reads this
    {
      Limits(blockedUntil, attempts)
    }

    // Nothing when the request may proceed, else the seconds until it may.
    method Check(key: Key, now: real) returns (wait: Option<real>)
      ensures wait.None? <==> BlockedUntil(State(), key) <= now
      ensures wait.Some? ==> wait.value == BlockedUntil(State(), key) - now
    {
      var remaining := (if key in blockedUntil then blockedUntil[key] else 0.0) - now;
      wait := if remaining > 0.0 then Some(remaining) else None;
    }

    // One failure more, and a pause from now on; nothing else changes.
    method RecordFailure(key: Key, now: real)
      modifies this
      ensures FailuresOf(State(), key) == FailuresOf(old(State()), key) + 1
      ensures BlockedUntil(State(), key) == now + Backoff(base, max, FailuresOf(State(), key))
      ensures attempts == old(attempts)[key := FailuresOf(State(), key)]
      ensures blockedUntil == old(blockedUntil)[key := BlockedUntil(State(), key)]
    {
      var failures := (if key in attempts then attempts[key] else 0) + 1;
      attempts := attempts[key := failures];
      var pause := base * Power2(failures - 1) as real;
      blockedUntil := blockedUntil[key := now + if pause < max then pause else max];
    }

    method RecordSuccess(key: Key)
      modifies this
      ensures Clear(State(), key) && forall other :: other != key ==> SameAt(State(), old(State()), other)
      ensures State() == Limits(old(blockedUntil) - {key}, old(attempts) - {key})
    {
      attempts := attempts - {key};
      blockedUntil := blockedUntil - {key};
    }

    // The exchange. There is no await between the check and the record, so an exchange is
    // atomic; `verified` is what comparing the password with the stored or the dummy hash says.
    method Exchange(x: Exchange) returns (answer: Answer)
      modifies this
      ensures Step(base, max, old(State()), x) == (State(), answer)
      ensures answer.Limited? <==> x.checkedAt < BlockedUntil(old(State()), x.key)
      ensures answer.Granted? <==> BlockedUntil(old(State()), x.key) <= x.checkedAt && x.verified && x.hasHash
      ensures answer.Denied? <==> BlockedUntil(old(State()), x.key) <= x.checkedAt && !(x.verified && x.hasHash)
      ensures answer.Limited? ==> State() == old(State())
      ensures answer.Granted? ==> Clear(State(), x.key)
      ensures answer.Denied? ==> FailuresOf(State(), x.key) == FailuresOf(old(State()), x.key) + 1
      ensures forall other :: other != x.key ==> SameAt(State(), old(State()), other)
    {
      var wait := Check(x.key, x.checkedAt);
      if wait.Some? {
        return Limited(wait.value);
      }
      if !x.verified || !x.hasHash {
        RecordFailure(x.key, x.recordedAt);
        return Denied;
      }
      RecordSuccess(x.key);
      return Granted;
    }
  }

  // ---- runs ------------------------------------------------------------------------------------------

  // hasHash: the workflow is published and has a password hash.
  datatype Exchange = Exchange(key: Key, verified: bool, hasHash: bool, checkedAt: real, recordedAt: real)

  datatype Answer = Limited(retryAfter: real) | Denied | Granted

  function Step(base: real, max: real, l: Limits, x: Exchange): (Limits, Answer) {
    if x.checkedAt < BlockedUntil(l, x.key) then (l, Limited(BlockedUntil(l, x.key) - x.checkedAt))
    else if x.verified && x.hasHash then (Limits(l.blockedUntil - {x.key}, l.attempts - {x.key}), Granted)
    else
      var failures := FailuresOf(l, x.key) + 1;
      (Limits(l.blockedUntil[x.key := x.recordedAt + Backoff(base, max, failures)], l.attempts[x.key := failures]),
       Denied)
  }

  function After(base: real, max: real, l: Limits, run: seq<Exchange>): Limits {
    if run == [] then l else Step(base, max, After(base, max, l, run[..|run| - 1]), run[|run| - 1]).0
  }

  function AnswerTo(base: real, max: real, l: Limits, run: seq<Exchange>, i: nat): Answer
    requires i < |run|
  {
    Step(base, max, After(base, max, l, run[..i]), run[i]).1
  }

  // What becomes of every exchange of every run: it is limited exactly while the pause of its
  // key lasts, granted exactly when the password matches and the workflow has one, and
  // otherwise denied and counted. No other key is touched.
  lemma AnswersAreRight(base: real, max: real, l: Limits, run: seq<Exchange>, i: nat)
    requires i < |run|
    ensures var x, before, after := run[i], After(base, max, l, run[..i]), After(base, max, l, run[..i + 1]);
            var over := BlockedUntil(before, x.key) <= x.checkedAt;
            && (AnswerTo(base, max, l, run, i).Limited? <==> !over)
            && (AnswerTo(base, max, l, run, i).Granted? <==> over && x.verified && x.hasHash)
            && (AnswerTo(base, max, l, run, i).Denied? <==> over && !(x.verified && x.hasHash))
            && (if !over then after == before
                else if x.verified && x.hasHash then Clear(after, x.key)
                else && FailuresOf(after, x.key) == FailuresOf(before, x.key) + 1
                     && BlockedUntil(after, x.key) == x.recordedAt + Backoff(base, max, FailuresOf(after, x.key)))
            && forall other :: other != x.key ==> SameAt(after, before, other)
  {
    assert run[..i + 1][..i] == run[..i];
  }

  // The clock does not go back, within an exchange or from one to the next.
  predicate Timely(run: seq<Exchange>) {
    && (forall i :: 0 <= i < |run| ==> run[i].checkedAt <= run[i].recordedAt)
    && (forall i, j :: 0 <= i < j < |run| ==> run[i].recordedAt <= run[j].checkedAt)
  }

  // The exchange is for the key and gets as far as comparing the password.
  predicate Reaches(base: real, max: real, l: Limits, run: seq<Exchange>, i: nat, key: Key)
    requires i < |run|
  {
    run[i].key == key && !AnswerTo(base, max, l, run, i).Limited?
  }

  predicate NoSuccess(base: real, max: real, l: Limits, run: seq<Exchange>, key: Key) {
    forall i: nat :: i < |run| && run[i].key == key ==> !AnswerTo(base, max, l, run, i).Granted?
  }

  // How many of the first exchanges reached the comparison.
  function Reached(base: real, max: real, l: Limits, run: seq<Exchange>, key: Key): nat {
    if run == [] then 0
    else Reached(base, max, l, run[..|run| - 1], key) + if Reaches(base, max, l, run, |run| - 1, key) then 1 else 0
  }

  // The sum of the first n pauses.
  function Pauses(base: real, max: real, n: nat): real {
    if n == 0 then 0.0 else Pauses(base, max, n - 1) + Backoff(base, max, n)
  }

  lemma PrefixAnswers(base: real, max: real, l: Limits, run: seq<Exchange>, i: nat, n: nat)
    requires i < n <= |run|
    ensures AnswerTo(base, max, l, run[..n], i) == AnswerTo(base, max, l, run, i)
  {
    assert run[..n][..i] == run[..i];
  }

  lemma PrefixIsTimely(run: seq<Exchange>, n: nat)
    requires Timely(run) && n <= |run|
    ensures Timely(run[..n])
  {
  }

  lemma PrefixHasNoSuccess(base: real, max: real, l: Limits, run: seq<Exchange>, key: Key, n: nat)
    requires NoSuccess(base, max, l, run, key) && n <= |run|
    ensures NoSuccess(base, max, l, run[..n], key)
  {
    forall i: nat | i < n && run[i].key == key ensures !AnswerTo(base, max, l, run[..n], i).Granted? {
      PrefixAnswers(base, max, l, run, i, n);
    }
  }

  lemma StepAddsUp(base: real, max: real, l: Limits, x: Exchange, key: Key, start: real)
    requires FailuresOf(l, key) >= 1 && BlockedUntil(l, key) >= start + Pauses(base, max, FailuresOf(l, key))
    requires x.checkedAt <= x.recordedAt && (x.key == key ==> !Step(base, max, l, x).1.Granted?)
    ensures var (l', answer) := Step(base, max, l, x);
            && FailuresOf(l', key) == FailuresOf(l, key) + (if x.key == key && !answer.Limited? then 1 else 0)
            && BlockedUntil(l', key) >= start + Pauses(base, max, FailuresOf(l', key))
  {
  }

  // While a key has no success, its count is the number of comparisons it has reached, and
  // its pause ends no earlier than all their pauses laid end to end after the first failure.
  lemma {:induction false} PausesAddUp(base: real, max: real, l: Limits, run: seq<Exchange>, key: Key, first: nat)
    requires Clear(l, key) && Timely(run) && NoSuccess(base, max, l, run, key)
    requires first < |run| && Reaches(base, max, l, run, first, key) && Reached(base, max, l, run[..first], key) == 0
    ensures var l' := After(base, max, l, run);
            && FailuresOf(l', key) == Reached(base, max, l, run, key) >= 1
            && BlockedUntil(l', key) >= run[first].recordedAt + Pauses(base, max, FailuresOf(l', key))
    decreases |run|
  {
    var last := |run| - 1;
    var before := run[..last];
    PrefixIsTimely(run, last);
    PrefixHasNoSuccess(base, max, l, run, key, last);
    assert run[last].key == key ==> !AnswerTo(base, max, l, run, last).Granted?;
    if first == last {
      NothingYet(base, max, l, before, key);
    } else {
      PrefixAnswers(base, max, l, run, first, last);
      assert before[..first] == run[..first];
      PausesAddUp(base, max, l, before, key, first);
      StepAddsUp(base, max, After(base, max, l, before), run[last], key, run[first].recordedAt);
    }
  }

  lemma {:induction false} NothingYet(base: real, max: real, l: Limits, run: seq<Exchange>, key: Key)
    requires Clear(l, key) && Reached(base, max, l, run, key) == 0
    ensures Clear(After(base, max, l, run), key)
  {
    if run != [] {
      NothingYet(base, max, l, run[..|run| - 1], key);
    }
  }

  // The backoff bound: in any run, of any length and mixed with any other keys, a key
  // reaches its (n+1)-st comparison without a success before it no earlier than the first n
  // pauses after its first failure. The last comparison may be the one that succeeds.
  lemma BackoffBound(base: real, max: real, l: Limits, run: seq<Exchange>, key: Key, first: nat, last: nat)
    requires first < last < |run|
    requires Clear(l, key) && Timely(run) && NoSuccess(base, max, l, run[..last], key)
    requires Reaches(base, max, l, run, first, key) && Reached(base, max, l, run[..first], key) == 0
    requires Reaches(base, max, l, run, last, key)
    ensures run[last].checkedAt - run[first].recordedAt >= Pauses(base, max, Reached(base, max, l, run[..last], key))
  {
    var before := run[..last];
    PrefixIsTimely(run, last);
    PrefixAnswers(base, max, l, run, first, last);
    assert before[..first] == run[..first];
    PausesAddUp(base, max, l, before, key, first);
  }

  // ---- what the pauses add up to -------------------------------------------------------------------

  // Each pause is twice the one before until the maximum cuts it.
  lemma PausesDouble(base: real, max: real, n: nat)
    requires n >= 1 && base >= 0.0 && max >= 0.0
    ensures Backoff(base, max, 1) == if base < max then base else max
    ensures Backoff(base, max, n + 1) == if 2.0 * Backoff(base, max, n) < max then 2.0 * Backoff(base, max, n) else max
  {
    var p := Power2(n - 1) as real;
    assert Power2(n) as real == 2.0 * p;
    assert base * (2.0 * p) == 2.0 * (base * p);
    assert Power2(0) == 1;
  }

  // With the shipped settings: 1, 2, 4, 8, 16 and 32 seconds, then a minute each time.
  lemma ShippedPauses(n: nat)
    requires n >= 1
    ensures Backoff(1.0, 60.0, n) == if n <= 6 then [1.0, 2.0, 4.0, 8.0, 16.0, 32.0][n - 1] else 60.0
  {
    assert Power2(0) == 1 && Power2(1) == 2 && Power2(2) == 4 && Power2(3) == 8 && Power2(4) == 16 && Power2(5) == 32;
    if n > 6 {
      AtLeast64(n - 1);
    }
  }

  lemma {:induction false} CappedPauses(n: nat)
    requires n >= 6
    ensures Pauses(1.0, 60.0, n) == 63.0 + 60.0 * (n - 6) as real
  {
    if n == 6 {
      assert Power2(0) == 1 && Power2(1) == 2 && Power2(2) == 4 && Power2(3) == 8 && Power2(4) == 16 && Power2(5) == 32;
      assert Pauses(1.0, 60.0, 3) == 7.0;
      assert Pauses(1.0, 60.0, 6) == 63.0;
    } else {
      CappedPauses(n - 1);
      AtLeast64(n - 1);
    }
  }

  lemma {:induction false} AtLeast64(n: nat)
    requires n >= 6
    ensures Power2(n) >= 64
  {
    if n > 6 {
      AtLeast64(n - 1);
    } else {
      assert Power2(3) == 8 && Power2(6) == 64;
    }
  }

  // With the shipped settings, seven or more comparisons take at least 63 seconds and a
  // minute for each one after the seventh, whether or not the last guess is right.
  lemma ShippedBound(l: Limits, run: seq<Exchange>, key: Key, first: nat, last: nat)
    requires first < last < |run|
    requires Clear(l, key) && Timely(run) && NoSuccess(1.0, 60.0, l, run[..last], key)
    requires Reaches(1.0, 60.0, l, run, first, key) && Reached(1.0, 60.0, l, run[..first], key) == 0
    requires Reaches(1.0, 60.0, l, run, last, key) && Reached(1.0, 60.0, l, run[..last], key) >= 6
    ensures run[last].checkedAt - run[first].recordedAt
            >= 63.0 + 60.0 * (Reached(1.0, 60.0, l, run[..last], key) - 6) as real
  {
    BackoffBound(1.0, 60.0, l, run, key, first, last);
    CappedPauses(Reached(1.0, 60.0, l, run[..last], key));
  }

  // ---- keys are independent, a success resets, and no pause outlasts the maximum ------------------------

  function Only(run: seq<Exchange>, key: Key): seq<Exchange> {
    if run == [] then []
    else Only(run[..|run| - 1], key) + if run[|run| - 1].key == key then [run[|run| - 1]] else []
  }

  lemma StepIsLocal(base: real, max: real, l: Limits, l': Limits, x: Exchange, key: Key)
    requires SameAt(l, l', key)
    ensures x.key == key ==> SameAt(Step(base, max, l, x).0, Step(base, max, l', x).0, key)
    ensures x.key != key ==> SameAt(Step(base, max, l, x).0, l', key)
  {
  }

  // What the limiter holds for a key is what it would hold had no other key ever been used.
  lemma {:induction false} KeysAreIndependent(base: real, max: real, l: Limits, run: seq<Exchange>, key: Key)
    ensures SameAt(After(base, max, l, run), After(base, max, l, Only(run, key)), key)
  {
    if run != [] {
      var before, last := run[..|run| - 1], run[|run| - 1];
      KeysAreIndependent(base, max, l, before, key);
      StepIsLocal(base, max, After(base, max, l, before), After(base, max, l, Only(before, key)), last, key);
      if last.key == key {
        assert Only(run, key)[..|Only(run, key)| - 1] == Only(before, key);
      } else {
        assert Only(run, key) == Only(before, key);
      }
    }
  }

  lemma {:induction false} RunsCompose(base: real, max: real, l: Limits, a: seq<Exchange>, b: seq<Exchange>)
    ensures After(base, max, l, a + b) == After(base, max, After(base, max, l, a), b)
  {
    if b == [] {
      assert a + b == a;
    } else {
      assert (a + b)[..|a + b| - 1] == a + b[..|b| - 1];
      RunsCompose(base, max, l, a, b[..|b| - 1]);
    }
  }

  // A success resets the curve: what follows it goes as if the key had never been used, so
  // the bound above starts anew from there.
  lemma SuccessResets(base: real, max: real, l: Limits, run: seq<Exchange>, later: seq<Exchange>)
    requires run != [] && AnswerTo(base, max, l, run, |run| - 1).Granted?
    ensures var l' := After(base, max, l, run);
            Clear(l', run[|run| - 1].key) && After(base, max, l, run + later) == After(base, max, l', later)
  {
    RunsCompose(base, max, l, run, later);
  }

  lemma {:induction false} PauseIsCapped(base: real, max: real, run: seq<Exchange>, key: Key, latest: real)
    requires latest + max >= 0.0 && forall i :: 0 <= i < |run| && run[i].key == key ==> run[i].recordedAt <= latest
    ensures BlockedUntil(After(base, max, NO_LIMITS, run), key) <= latest + max
  {
    if run != [] {
      PauseIsCapped(base, max, run[..|run| - 1], key, latest);
    }
  }

  // Nobody is told to wait longer than the maximum.
  lemma WaitIsCapped(base: real, max: real, run: seq<Exchange>, i: nat)
    requires Timely(run) && i < |run| && max >= 0.0 && run[i].checkedAt >= 0.0
    ensures var answer := AnswerTo(base, max, NO_LIMITS, run, i);
            answer.Limited? ==> 0.0 < answer.retryAfter <= max
  {
    PauseIsCapped(base, max, run[..i], run[i].key, run[i].checkedAt);
  }

  // Nobody is locked out: once the maximum has passed since the key was last used, the
  // exchange reaches the comparison.
  lemma PatienceIsServed(base: real, max: real, run: seq<Exchange>, i: nat)
    requires i < |run| && run[i].checkedAt >= 0.0
    requires forall j :: 0 <= j < i && run[j].key == run[i].key ==> run[j].recordedAt + max <= run[i].checkedAt
    ensures !AnswerTo(base, max, NO_LIMITS, run, i).Limited?
  {
    PauseIsCapped(base, max, run[..i], run[i].key, run[i].checkedAt - max);
  }
}
