/** Login lockout: how many wrong passwords a run of login attempts can get verified
    (app/services/auth_flow.py:547-577, app/api/auth_flow.py:72-81). */
module Lockout {
  import opened Names

  /** Times are whole microseconds, the resolution of the stored timestamps. */
  const LOCK := 15 * 60 * 1_000_000
  const MAX_FAILURES := 5

  datatype Credential = Credential(failed: nat, lockedUntil: Option<int>)

  /** One attempt: its time, whether the password verifies, and whether a reset is demanded. */
  datatype Attempt = Attempt(now: int, verified: bool, mustChange: bool)

  datatype Outcome = Locked | Wrong | MustChange | Accepted

  predicate IsLocked(c: Credential, now: int) {
    c.lockedUntil.Some? && c.lockedUntil.value > now
  }

  function Step(c: Credential, a: Attempt): (Credential, Outcome) {
    if IsLocked(c, a.now) then (c, Locked)
    else if !a.verified then
      (Credential(c.failed + 1, if c.failed + 1 >= MAX_FAILURES then Some(a.now + LOCK) else c.lockedUntil), Wrong)
    else if a.mustChange then (c, MustChange)
    else (Credential(0, None), Accepted)
  }

  function After(c: Credential, attempts: seq<Attempt>): Credential
    decreases attempts
  {
    if attempts == [] then c else After(Step(c, attempts[0]).0, attempts[1..])
  }

  function Outcomes(c: Credential, attempts: seq<Attempt>): (outs: seq<Outcome>)
    ensures |outs| == |attempts|
    decreases attempts
  {
    if attempts == [] then [] else [Step(c, attempts[0]).1] + Outcomes(Step(c, attempts[0]).0, attempts[1..])
  }

  lemma {:induction false} RunSplits(c: Credential, a: seq<Attempt>, b: seq<Attempt>)
    ensures After(c, a + b) == After(After(c, a), b)
    ensures Outcomes(c, a + b) == Outcomes(c, a) + Outcomes(After(c, a), b)
    decreases a
  {
    if a == [] {
      assert a + b == b;
    } else {
      assert (a + b)[0] == a[0] && (a + b)[1..] == a[1..] + b;
      RunSplits(Step(c, a[0]).0, a[1..], b);
    }
  }

  /** A user_credentials row. */
  class UserCredential {
    var failedLoginAttempts: nat
    var lockedUntil: Option<int>

    function Value(): Credential
      reads this
    {
      Credential(failedLoginAttempts, lockedUntil)
    }

    /** One login attempt; the counters are committed even when the attempt is refused. A locked
        credential is not even looked at; a wrong password counts, and from the fifth on locks for
        a quarter of an hour; success clears the counter and the lock. */
    method Login(a: Attempt) returns (o: Outcome)
      modifies this
      ensures o == Locked <==> old(lockedUntil).Some? && a.now < old(lockedUntil).value
      ensures o == Wrong <==> o != Locked && !a.verified
      ensures o == Accepted <==> o != Locked && a.verified && !a.mustChange
      ensures o == Accepted ==> failedLoginAttempts == 0 && lockedUntil == None
      ensures o == Wrong ==> failedLoginAttempts == old(failedLoginAttempts) + 1
      ensures o == Wrong ==>
        lockedUntil == if failedLoginAttempts < 5 then old(lockedUntil) else Some(a.now + 900 * 1_000_000)
      ensures o == Locked || o == MustChange ==> Value() == old(Value())
      ensures (Value(), o) == Step(old(Value()), a)
    {
      if lockedUntil.Some? && lockedUntil.value > a.now { return Locked; }
      if !a.verified {
        failedLoginAttempts := failedLoginAttempts + 1;
        if failedLoginAttempts >= MAX_FAILURES {
          lockedUntil := Some(a.now + LOCK);
        }
        return Wrong;
      }
      if a.mustChange { return MustChange; }
      failedLoginAttempts, lockedUntil := 0, None;
      return Accepted;
    }
  }

  // -------------------------------------------------------- told by the outcomes

  /** Wrong passwords since the last success. */
  function Failures(outs: seq<Outcome>): nat {
    if outs == [] || outs[|outs| - 1] == Accepted then 0
    else Failures(outs[..|outs| - 1]) + if outs[|outs| - 1] == Wrong then 1 else 0
  }

  /** When the last wrong password was given. */
  function LastWrong(attempts: seq<Attempt>, outs: seq<Outcome>): int
    requires |outs| <= |attempts|
  {
    if outs == [] then 0
    else if outs[|outs| - 1] == Wrong then attempts[|outs| - 1].now
    else LastWrong(attempts, outs[..|outs| - 1])
  }

  /** Five failures in a row, the last of them less than a quarter of an hour ago. */
  predicate LockedOut(attempts: seq<Attempt>, outs: seq<Outcome>, now: int)
    requires |outs| <= |attempts|
  {
    Failures(outs) >= 5 && now < LastWrong(attempts, outs) + LOCK
  }

  predicate Decided(attempts: seq<Attempt>, outs: seq<Outcome>, j: nat)
    requires j < |outs| <= |attempts|
  {
    var a, locked := attempts[j], LockedOut(attempts, outs[..j], attempts[j].now);
    && (outs[j] == Locked <==> locked)
    && (outs[j] == Wrong <==> !locked && !a.verified)
    && (outs[j] == Accepted <==> !locked && a.verified && !a.mustChange)
  }

  const NEW := Credential(0, None)

  lemma LastStep(attempts: seq<Attempt>)
    requires attempts != []
    ensures var k := |attempts| - 1;
      && After(NEW, attempts) == Step(After(NEW, attempts[..k]), attempts[k]).0
      && Outcomes(NEW, attempts) == Outcomes(NEW, attempts[..k]) + [Step(After(NEW, attempts[..k]), attempts[k]).1]
  {
    hide Step;
    var k := |attempts| - 1;
    var before, last := attempts[..k], [attempts[k]];
    assert attempts == before + last && last[0] == attempts[k] && last[1..] == [];
    RunSplits(NEW, before, last);
    OneStep(After(NEW, before), attempts[k]);
    hide After, Outcomes;
  }

  lemma OneStep(c: Credential, a: Attempt)
    ensures After(c, [a]) == Step(c, a).0 && Outcomes(c, [a]) == [Step(c, a).1]
  {
    hide Step;
    assert [a][0] == a && [a][1..] == [];
  }

  lemma {:induction false} LastWrongSame(attempts: seq<Attempt>, before: seq<Attempt>, outs: seq<Outcome>)
    requires before <= attempts && |outs| <= |before|
    ensures LastWrong(attempts, outs) == LastWrong(before, outs)
  {
    if outs != [] {
      LastWrongSame(attempts, before, outs[..|outs| - 1]);
    }
  }

  // A credential that starts unlocked holds what its outcomes tell.
  lemma {:induction false} OutcomesTell(attempts: seq<Attempt>)
    ensures var outs := Outcomes(NEW, attempts);
      After(NEW, attempts) ==
        Credential(Failures(outs), if Failures(outs) >= 5 then Some(LastWrong(attempts, outs) + LOCK) else None)
  {
    if attempts != [] {
      var k := |attempts| - 1;
      OutcomesTell(attempts[..k]);
      LastStep(attempts);
      var before, outs := Outcomes(NEW, attempts[..k]), Outcomes(NEW, attempts);
      assert outs[..k] == before;
      LastWrongSame(attempts, attempts[..k], before);
    }
  }

  /** The whole policy, told by the outcomes alone: an attempt is refused unseen exactly after five
      failures in a row of which the last is recent; otherwise the password decides. */
  lemma OutcomesDecide(attempts: seq<Attempt>, j: nat)
    requires j < |attempts|
    ensures Decided(attempts, Outcomes(NEW, attempts), j)
  {
    var before, outs := attempts[..j], Outcomes(NEW, attempts);
    assert attempts == before + attempts[j..];
    RunSplits(NEW, before, attempts[j..]);
    assert outs[..j] == Outcomes(NEW, before) && outs[j] == Outcomes(After(NEW, before), attempts[j..])[0];
    OutcomesTell(before);
    LastWrongSame(attempts, before, outs[..j]);
  }

  // ------------------------------------------------------------------ the bound

  function WrongCount(outs: seq<Outcome>): nat {
    if outs == [] then 0 else (if outs[0] == Wrong then 1 else 0) + WrongCount(outs[1..])
  }

  /** The clock does not run backwards. */
  predicate Monotone(attempts: seq<Attempt>) {
    forall i, j :: 0 <= i <= j < |attempts| ==> attempts[i].now <= attempts[j].now
  }

  function Max(a: int, b: int): int { if a < b then b else a }

  // The earliest time at which a wrong password can still be verified.
  function Opens(c: Credential, now: int): int {
    if c.lockedUntil.Some? then Max(now, c.lockedUntil.value) else now
  }

  // Wrong passwords that can still be verified between `now` and `end`.
  function Budget(c: Credential, now: int, end: int): nat {
    var s := Opens(c, now);
    if s > end then 0 else (if c.failed < MAX_FAILURES then MAX_FAILURES - c.failed else 1) + (end - s) / LOCK
  }

  lemma DivShift(x: int)
    requires x >= LOCK
    ensures (x - LOCK) / LOCK + 1 == x / LOCK
  {}

  lemma DivMonotone(x: int, y: int)
    requires 0 <= x <= y
    ensures x / LOCK <= y / LOCK
  {}

  lemma BudgetStep(c: Credential, a: Attempt, next: int, end: int)
    requires a.now <= next <= end && Step(c, a).1 != Accepted
    ensures (if Step(c, a).1 == Wrong then 1 else 0) + Budget(Step(c, a).0, next, end) <= Budget(c, a.now, end)
  {
    var c' := Step(c, a).0;
    var s, s' := Opens(c, a.now), Opens(c', next);
    if s' <= end {
      DivMonotone(end - s', end - s);
      if Step(c, a).1 == Wrong && c.failed + 1 >= MAX_FAILURES {
        DivShift(end - s);
        DivMonotone(end - s', end - (s + LOCK));
      }
    }
  }

  lemma {:induction false} BudgetHolds(c: Credential, attempts: seq<Attempt>, end: int)
    requires attempts != [] && Monotone(attempts) && attempts[|attempts| - 1].now <= end
    requires Accepted !in Outcomes(c, attempts)
    ensures WrongCount(Outcomes(c, attempts)) <= Budget(c, attempts[0].now, end)
    decreases attempts
  {
    var a, rest := attempts[0], attempts[1..];
    var outs := Outcomes(c, attempts);
    assert outs[0] == Step(c, a).1 && outs[1..] == Outcomes(Step(c, a).0, rest);
    if rest != [] {
      assert forall o :: o in outs[1..] ==> o in outs;
      BudgetHolds(Step(c, a).0, rest, end);
      BudgetStep(c, a, rest[0].now, end);
    } else {
      BudgetStep(c, a, a.now, end);
    }
  }

  lemma SpanOutcomes(c: Credential, attempts: seq<Attempt>, i: nat, j: nat)
    requires i <= j <= |attempts|
    ensures Outcomes(c, attempts)[i..j] == Outcomes(After(c, attempts[..i]), attempts[i..j])
  {
    assert attempts == attempts[..i] + attempts[i..];
    RunSplits(c, attempts[..i], attempts[i..]);
    assert attempts[i..] == attempts[i..j] + attempts[j..];
    RunSplits(After(c, attempts[..i]), attempts[i..j], attempts[j..]);
  }

  /** Within any span of `t` microseconds without a successful login in between, at most
      5 + t / 15 min wrong passwords are verified for one credential, from whatever state. */
  lemma LockoutBound(c: Credential, attempts: seq<Attempt>, i: nat, j: nat, t: nat)
    requires i < j <= |attempts| && Monotone(attempts) && attempts[j - 1].now - attempts[i].now <= t
    requires Accepted !in Outcomes(c, attempts)[i..j]
    ensures WrongCount(Outcomes(c, attempts)[i..j]) <= MAX_FAILURES + t / LOCK
  {
    hide After, Outcomes, WrongCount, Budget;
    var now, span, end := After(c, attempts[..i]), attempts[i..j], attempts[j - 1].now;
    SpanOutcomes(c, attempts, i, j);
    BudgetHolds(now, span, end);
    BudgetBound(now, span[0].now, end, t);
  }

  lemma BudgetBound(c: Credential, from: int, end: int, t: nat)
    requires end - from <= t
    ensures Budget(c, from, end) <= MAX_FAILURES + t / LOCK
  {
    var s := Opens(c, from);
    if s <= end {
      DivMonotone(end - s, t);
    }
  }

  /** Logins one after another on one credential: between any two of them that enclose no success,
      the wrong passwords verified are bounded by the time that passed. */
  method RunLogins(u: UserCredential, attempts: seq<Attempt>) returns (outs: seq<Outcome>)
    requires Monotone(attempts)
    modifies u
    ensures u.Value() == After(old(u.Value()), attempts) && outs == Outcomes(old(u.Value()), attempts)
    ensures |outs| == |attempts|
    ensures forall i, j :: 0 <= i < j <= |outs| && Accepted !in outs[i..j] ==>
      WrongCount(outs[i..j]) <= MAX_FAILURES + (attempts[j - 1].now - attempts[i].now) / LOCK
    ensures old(u.Value()) == NEW ==> forall j :: 0 <= j < |outs| ==> Decided(attempts, outs, j)
  {
    outs := [];
    ghost var c := u.Value();
    for i := 0 to |attempts|
      invariant u.Value() == After(c, attempts[..i]) && outs == Outcomes(c, attempts[..i])
    {
      var o := u.Login(attempts[i]);
      outs := outs + [o];
      RunSplits(c, attempts[..i], [attempts[i]]);
      assert attempts[..i + 1] == attempts[..i] + [attempts[i]];
      assert [attempts[i]][1..] == [];
    }
    assert attempts[..|attempts|] == attempts;
    forall i, j | 0 <= i < j <= |outs| && Accepted !in outs[i..j]
      ensures WrongCount(outs[i..j]) <= MAX_FAILURES + (attempts[j - 1].now - attempts[i].now) / LOCK
    {
      LockoutBound(c, attempts, i, j, attempts[j - 1].now - attempts[i].now);
    }
    if c == NEW {
      forall j | 0 <= j < |outs| ensures Decided(attempts, outs, j) {
        OutcomesDecide(attempts, j);
      }
    }
  }

  lemma {:induction false} WrongCountSplits(a: seq<Outcome>, b: seq<Outcome>)
    ensures WrongCount(a + b) == WrongCount(a) + WrongCount(b)
  {
    if a == [] {
      assert a + b == b;
    } else {
      assert (a + b)[0] == a[0] && (a + b)[1..] == a[1..] + b;
      WrongCountSplits(a[1..], b);
    }
  }

  lemma OneMore(c: Credential, attempts: seq<Attempt>, a: Attempt)
    ensures After(c, attempts + [a]) == Step(After(c, attempts), a).0
    ensures WrongCount(Outcomes(c, attempts + [a])) == WrongCount(Outcomes(c, attempts))
        + if Step(After(c, attempts), a).1 == Wrong then 1 else 0
  {
    RunSplits(c, attempts, [a]);
    assert [a][1..] == [];
    WrongCountSplits(Outcomes(c, attempts), Outcomes(After(c, attempts), [a]));
    assert WrongCount([Step(After(c, attempts), a).1]) == if Step(After(c, attempts), a).1 == Wrong then 1 else 0;
  }

  /** The bound is reached: five at once, and one more the moment the lock ends. */
  lemma BoundIsTight()
    ensures var w := Attempt(0, false, false);
      WrongCount(Outcomes(Credential(0, None), [w] + [w] + [w] + [w] + [w]
          + [Attempt(LOCK, false, false)])) == MAX_FAILURES + LOCK / LOCK
  {
    var w, c := Attempt(0, false, false), Credential(0, None);
    hide After, Outcomes;
    OneMore(c, [], w);
    assert [] + [w] == [w];
    OneMore(c, [w], w);
    OneMore(c, [w] + [w], w);
    OneMore(c, [w] + [w] + [w], w);
    OneMore(c, [w] + [w] + [w] + [w], w);
    OneMore(c, [w] + [w] + [w] + [w] + [w], Attempt(LOCK, false, false));
    Nothing(c);
  }

  lemma Nothing(c: Credential)
    ensures After(c, []) == c && WrongCount(Outcomes(c, [])) == 0
  {}
}
