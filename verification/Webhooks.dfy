/** Webhook retries: the attempt on one row, the sweep over pending rows, and every interleaving
    of workers that hold stale copies of them (app/services/webhooks/delivery.py:32-109,
    app/tasks/webhook_deliver.py:15-65). */
module Webhooks {
  import opened Names
  import opened Sets

  type Id = nat

  const MAX_ATTEMPTS := 5

  datatype Status = Pending | Delivered | Failed

  /** What an attempt meets: no endpoint, a response code, or a transport error. */
  datatype Result = NoEndpoint | Response(code: int) | TransportError(text: string)

  /** The columns of a delivery that attempts read and write. */
  datatype Copy = Copy(status: Status, attempts: nat)

  predicate IsSuccess(r: Result) {
    r.Response? && 200 <= r.code <= 299
  }

  /** One attempt on a copy of the row. */
  function Attempted(c: Copy, r: Result): Copy {
    Copy(if IsSuccess(r) then Delivered else if c.attempts + 1 >= MAX_ATTEMPTS then Failed
        else c.status, c.attempts + 1)
  }

  /** A delivery as one session holds it. */
  class WebhookDelivery {
    var status: Status
    var attempts: nat
    var lastStatusCode: Option<int>
    var lastError: Option<string>

    constructor (c: Copy)
      ensures Value() == c
    {
      status, attempts, lastStatusCode, lastError := c.status, c.attempts, None, None;
    }

    function Value(): Copy
      reads this
    {
      Copy(status, attempts)
    }

    /** attempt_delivery: count the attempt, then settle the status. */
    method Attempt(r: Result) returns (delivered: bool)
      modifies this
      ensures Value() == Attempted(old(Value()), r) && (delivered <==> IsSuccess(r))
      ensures attempts == old(attempts) + 1 && (delivered <==> r.Response? && 200 <= r.code <= 299)
      ensures status == if delivered then Delivered else if attempts >= 5 then Failed else old(status)
      ensures lastStatusCode == if r.Response? && !IsSuccess(r) then Some(r.code) else old(lastStatusCode)
      ensures lastError == if r.NoEndpoint? then Some("endpoint not found")
          else if r.TransportError? then Some(Clip(r.text)) else old(lastError)
    {
      delivered := false;
      attempts := attempts + 1;
      match r {
        case NoEndpoint =>
          lastError := Some("endpoint not found");
        case Response(code) =>
          if 200 <= code <= 299 {
            status, delivered := Delivered, true;
          } else {
            lastStatusCode := Some(code);
          }
        case TransportError(text) =>
          lastError := Some(Clip(text));
      }
      if !delivered && attempts >= MAX_ATTEMPTS {
        status := Failed;
      }
    }
  }

  function Clip(text: string): string {
    if |text| <= 512 then text else text[..512]
  }

  // --------------------------------------------------- rows and stale copies

  datatype Row = Row(status: Status, attempts: nat, updatedAt: int)

  function CopyOf(r: Row): Copy {
    Copy(r.status, r.attempts)
  }

  /** The UPDATE of a session that loaded `c`: the counter is always written, the status only
      when it differs from the loaded one, whatever the row holds by now. */
  function Write(row: Row, c: Copy, r: Result, now: int): Row {
    var c' := Attempted(c, r);
    Row(if c'.status != c.status then c'.status else row.status, c'.attempts, now)
  }

  /** The table, and the copies that workers have loaded and not yet written back. */
  datatype State = State(rows: map<Id, Row>, jobs: map<Id, map<Id, Copy>>)

  datatype Step =
    | Create(id: Id, now: int)
    | LoadOne(job: Id, id: Id)
    | LoadPending(job: Id, chosen: set<Id>)
    | Commit(job: Id, results: Id -> Result, now: int)
    | Abort(job: Id)

  predicate IsPending(row: Row) {
    row.status == Pending && row.attempts < MAX_ATTEMPTS
  }

  function Loaded(rows: map<Id, Row>, chosen: set<Id>): map<Id, Copy> {
    map i | i in chosen && i in rows :: CopyOf(rows[i])
  }

  function WriteAll(rows: map<Id, Row>, copies: map<Id, Copy>, results: Id -> Result, now: int): map<Id, Row> {
    map i | i in rows :: if i in copies then Write(rows[i], copies[i], results(i), now) else rows[i]
  }

  /** deliver loads one row, whatever its status; sweep loads pending ones; both write at commit. */
  function Next(s: State, e: Step): State {
    match e
    case Create(id, now) => if id in s.rows then s else s.(rows := s.rows[id := Row(Pending, 0, now)])
    case LoadOne(job, id) => s.(jobs := s.jobs[job := Loaded(s.rows, {id})])
    case LoadPending(job, chosen) => s.(jobs := s.jobs[job := Loaded(s.rows, set i | i in chosen && i in s.rows
        && IsPending(s.rows[i]))])
    case Commit(job, results, now) =>
      if job in s.jobs then State(WriteAll(s.rows, s.jobs[job], results, now), s.jobs - {job}) else s
    case Abort(job) => s.(jobs := s.jobs - {job})
  }

  function Run(s: State, steps: seq<Step>): State {
    if steps == [] then s else Next(Run(s, steps[..|steps| - 1]), steps[|steps| - 1])
  }

  /** Pending rows have attempts left, pending copies too, and a copy that saw an end is right about it. */
  ghost predicate Sound(s: State) {
    && (forall i :: i in s.rows && s.rows[i].status == Pending ==> s.rows[i].attempts < MAX_ATTEMPTS)
    && (forall j, i :: j in s.jobs && i in s.jobs[j] ==> CopySound(s.rows, i, s.jobs[j][i]))
  }

  predicate CopySound(rows: map<Id, Row>, i: Id, c: Copy) {
    i in rows && (if c.status == Pending then c.attempts < MAX_ATTEMPTS else rows[i].status != Pending)
  }

  /** Rows stay, and no row returns to pending. */
  ghost predicate NeverBack(a: map<Id, Row>, b: map<Id, Row>) {
    forall i :: i in a ==> i in b && (a[i].status != Pending ==> b[i].status != Pending)
  }

  lemma StepSound(s: State, e: Step)
    requires Sound(s)
    ensures Sound(Next(s, e)) && NeverBack(s.rows, Next(s, e).rows)
  {
    if e.Commit? && e.job in s.jobs {
      forall i | i in s.rows && i in s.jobs[e.job] ensures CopySound(s.rows, i, s.jobs[e.job][i]) {}
    }
  }

  /** Whatever workers, stale copies, crashes and results there are, in every reachable state a
      pending row has fewer than five attempts, and no row ever returns to pending. */
  lemma {:induction false} RunSound(s: State, steps: seq<Step>, k: nat)
    requires Sound(s) && k <= |steps|
    ensures Sound(Run(s, steps)) && NeverBack(Run(s, steps[..k]).rows, Run(s, steps).rows)
  {
    if k == |steps| {
      assert steps[..k] == steps;
      if k > 0 {
        RunSound(s, steps[..k - 1], k - 1);
        StepSound(Run(s, steps[..k - 1]), steps[k - 1]);
      }
    } else {
      var i := |steps| - 1;
      assert steps[..i][..k] == steps[..k];
      RunSound(s, steps[..i], k);
      StepSound(Run(s, steps[..i]), steps[i]);
    }
  }

  /** The counter itself is not monotone: a worker with a stale copy sets it back, and it can even
      write a failed row's counter below the limit. */
  lemma AttemptsCanDrop()
    ensures var bad: Id -> Result := (i: Id) => Response(500);
      var s := State(map[0 := Row(Pending, 3, 0)], map[]);
      var t := Next(Next(Next(s, LoadOne(1, 0)), LoadOne(2, 0)), Commit(2, bad, 1));
      var u := Next(Next(Next(t, LoadOne(3, 0)), Commit(3, bad, 2)), Commit(1, bad, 3));
      Sound(s) && t.rows[0].attempts == 4
          && Next(Next(t, LoadOne(3, 0)), Commit(3, bad, 2)).rows[0] == Row(Failed, 5, 2)
          && u.rows[0] == Row(Failed, 4, 3)
  {}

  /** deliver does not look at the status: a delivered row is posted again, and can end failed. */
  lemma DeliveredCanFail()
    ensures var bad: Id -> Result := (i: Id) => Response(500);
      var s := State(map[0 := Row(Delivered, 4, 0)], map[]);
      Sound(s) && Next(Next(s, LoadOne(1, 0)), Commit(1, bad, 1)).rows[0] == Row(Failed, 5, 1)
  {}

  /** Nor does it take deliver: of two sweeps that picked one pending row, the later and
      unsuccessful one fails what the other delivered. */
  lemma SweepsCanFail()
    ensures var bad: Id -> Result := (i: Id) => Response(500);
      var good: Id -> Result := (i: Id) => Response(200);
      var s := State(map[0 := Row(Pending, 4, 0)], map[]);
      var t := Next(Next(Next(s, LoadPending(1, {0})), LoadPending(2, {0})), Commit(2, good, 1));
      Sound(s) && t.rows[0] == Row(Delivered, 5, 1) && Next(t, Commit(1, bad, 2)).rows[0] == Row(Failed, 5, 2)
  {}

  // --------------------------------------------- when nothing is taken back

  /** Rows stay, no counter drops, and what was delivered stays delivered. */
  ghost predicate Steady(a: map<Id, Row>, b: map<Id, Row>) {
    forall i :: i in a ==>
      i in b && a[i].attempts <= b[i].attempts
      && (a[i].status == Delivered ==> b[i].status == Delivered)
  }

  /** Writing back copy `c` takes nothing back: it is at most one attempt behind the row, and not
      the last and unsuccessful one of a row that was delivered meanwhile. */
  predicate TakesNothingBack(row: Row, c: Copy, r: Result) {
    && row.attempts <= c.attempts + 1
    && !(row.status == Delivered && !IsSuccess(r) && c.attempts + 1 >= MAX_ATTEMPTS && c.status != Failed)
  }

  /** A step keeps counters and deliveries exactly when every copy that it writes back does. */
  lemma StepSteadyIff(s: State, e: Step)
    ensures Steady(s.rows, Next(s, e).rows) <==>
      (e.Commit? && e.job in s.jobs ==>
         forall i :: i in s.rows && i in s.jobs[e.job] ==> TakesNothingBack(s.rows[i], s.jobs[e.job][i], e.results(i)))
  {
    if e.Commit? && e.job in s.jobs {
      var after := Next(s, e).rows;
      forall i | i in s.rows && i in s.jobs[e.job]
        ensures TakesNothingBack(s.rows[i], s.jobs[e.job][i], e.results(i)) <==>
                s.rows[i].attempts <= after[i].attempts
                    && (s.rows[i].status == Delivered ==> after[i].status == Delivered)
      {
        WriteKeepsIff(s.rows[i], s.jobs[e.job][i], e.results(i), e.now);
      }
      hide Write, TakesNothingBack;
    }
  }

  lemma WriteKeepsIff(row: Row, c: Copy, r: Result, now: int)
    ensures var w := Write(row, c, r, now);
      TakesNothingBack(row, c, r) <==> row.attempts <= w.attempts && (row.status == Delivered ==> w.status == Delivered)
  {}

  /** No two open jobs hold a copy of one row. */
  ghost predicate Exclusive(s: State) {
    forall j, k, i :: j in s.jobs && k in s.jobs && i in s.jobs[j] && i in s.jobs[k] ==> j == k
  }

  /** Every copy is of a pending row, and still what the row says. */
  ghost predicate UpToDate(s: State) {
    Exclusive(s) && forall j, i :: j in s.jobs && i in s.jobs[j] ==>
        i in s.rows && IsPending(s.rows[i]) && s.jobs[j][i] == CopyOf(s.rows[i])
  }

  /** The discipline that the workers do not have: nobody loads a row that another holds, and
      deliver, like sweep, only takes pending ones. */
  ghost predicate Disciplined(s: State, steps: seq<Step>) {
    forall k :: 0 <= k < |steps| ==> Orderly(Run(s, steps[..k]), steps[k])
  }

  ghost predicate Orderly(s: State, e: Step) {
    Exclusive(Next(s, e)) && (e.LoadOne? && e.id in s.rows ==> IsPending(s.rows[e.id]))
  }

  lemma StepUpToDate(s: State, e: Step)
    requires UpToDate(s) && Orderly(s, e)
    ensures UpToDate(Next(s, e)) && Steady(s.rows, Next(s, e).rows)
  {
    StepSteadyIff(s, e);
    hide Write;
    if e.Commit? && e.job in s.jobs {
      CommitUpToDate(s, e);
    }
  }

  lemma CommitUpToDate(s: State, e: Step)
    requires UpToDate(s) && e.Commit? && e.job in s.jobs
    ensures UpToDate(Next(s, e))
  {
    hide Write, IsPending;
    var t := Next(s, e);
    forall j, i | j in t.jobs && i in t.jobs[j] ensures i in t.rows && t.rows[i] == s.rows[i] {
      assert i in s.jobs[j] && i !in s.jobs[e.job];
    }
  }

  lemma DisciplinedPrefix(s: State, steps: seq<Step>)
    requires Disciplined(s, steps) && |steps| > 0
    ensures Disciplined(s, steps[..|steps| - 1]) && Orderly(Run(s, steps[..|steps| - 1]), steps[|steps| - 1])
  {
    hide Run, Orderly;
    var i := |steps| - 1;
    assert forall m :: 0 <= m < i ==> steps[..i][..m] == steps[..m] && steps[..i][m] == steps[m];
  }

  lemma RunLast(s: State, steps: seq<Step>)
    requires |steps| > 0
    ensures Run(s, steps) == Next(Run(s, steps[..|steps| - 1]), steps[|steps| - 1])
  {
    hide Next;
  }

  lemma RunNone(s: State)
    ensures Run(s, []) == s
  {}

  lemma SteadyTrans(a: map<Id, Row>, b: map<Id, Row>, c: map<Id, Row>)
    requires Steady(a, b) && Steady(b, c)
    ensures Steady(a, c)
  {}

  lemma SteadyRefl(a: map<Id, Row>)
    ensures Steady(a, a)
  {}

  /** Under that discipline, over every run, counters never drop and deliveries are final. */
  lemma {:induction false} DisciplinedSteady(s: State, steps: seq<Step>, k: nat)
    requires UpToDate(s) && Disciplined(s, steps) && k <= |steps|
    ensures UpToDate(Run(s, steps)) && Steady(Run(s, steps[..k]).rows, Run(s, steps).rows)
  {
    hide *;
    if steps == [] {
      RunNone(s);
      assert steps[..k] == steps;
      SteadyRefl(s.rows);
    } else {
      var i := |steps| - 1;
      DisciplinedPrefix(s, steps);
      DisciplinedSteady(s, steps[..i], if k < |steps| then k else 0);
      StepUpToDate(Run(s, steps[..i]), steps[i]);
      RunLast(s, steps);
      if k < |steps| {
        assert steps[..i][..k] == steps[..k];
        SteadyTrans(Run(s, steps[..k]).rows, Run(s, steps[..i]).rows, Run(s, steps).rows);
      } else {
        assert steps[..k] == steps;
        SteadyRefl(Run(s, steps).rows);
      }
    }
  }

  // -------------------------------------------------------------- the sweep

  ghost function AllPending(rows: map<Id, Row>): set<Id> {
    set i | i in rows && IsPending(rows[i])
  }

  /** `chosen` are the oldest pending rows, as many as the limit allows. */
  ghost predicate OldestFirst(rows: map<Id, Row>, chosen: set<Id>, limit: nat) {
    && chosen <= AllPending(rows)
    && (if |AllPending(rows)| <= limit then chosen == AllPending(rows) else |chosen| == limit)
    && (forall i, j :: i in chosen && j in AllPending(rows) && j !in chosen ==> rows[i].updatedAt <= rows[j].updatedAt)
  }

  /** Each chosen row is attempted once. */
  function Swept(rows: map<Id, Row>, chosen: set<Id>, results: Id -> Result, now: int): map<Id, Row> {
    map i | i in rows :: if i in chosen then Write(rows[i], CopyOf(rows[i]), results(i), now) else rows[i]
  }

  class DeliveryTable {
    var rows: map<Id, Row>

    /** The oldest of some pending rows. */
    method Oldest(candidates: set<Id>) returns (i: Id)
      requires candidates != {} && forall j :: j in candidates ==> j in rows
      ensures i in candidates && forall j :: j in candidates ==> rows[i].updatedAt <= rows[j].updatedAt
    {
      i :| i in candidates;
      var todo := candidates - {i};
      while todo != {}
        invariant i in candidates && todo <= candidates
        invariant forall j :: j in candidates && j !in todo ==> rows[i].updatedAt <= rows[j].updatedAt
      {
        var j :| j in todo;
        if rows[j].updatedAt < rows[i].updatedAt {
          i := j;
        }
        todo := todo - {j};
      }
    }

    /** SELECT ... ORDER BY updated_at LIMIT. */
    method Choose(limit: nat) returns (chosen: set<Id>)
      ensures OldestFirst(rows, chosen, limit)
    {
      var rest := set i | i in rows && IsPending(rows[i]);
      ghost var pending := rest;
      assert pending == AllPending(rows);
      chosen := {};
      while rest != {} && |chosen| < limit
        invariant chosen + rest == pending && chosen !! rest && |chosen| <= limit
        invariant forall i, j :: i in chosen && j in rest ==> rows[i].updatedAt <= rows[j].updatedAt
        decreases rest
      {
        var i := Oldest(rest);
        chosen, rest := chosen + {i}, rest - {i};
      }
      SizeSplit(chosen, rest, pending);
    }

    /** sweep_deliveries with nobody else at work on the chosen rows. */
    method SweepDeliveries(limit: nat, results: Id -> Result, now: int) returns (count: nat, ghost chosen: set<Id>)
      modifies this
      ensures OldestFirst(old(rows), chosen, limit) && count == |chosen|
      ensures rows == Swept(old(rows), chosen, results, now)
    {
      var picked := Choose(limit);
      chosen, count := picked, |picked|;
      var todo := picked;
      ghost var before := rows;
      while todo != {}
        invariant todo <= picked <= before.Keys && rows.Keys == before.Keys
        invariant forall i :: i in before ==>
            rows[i] == if i in picked && i !in todo then Write(before[i], CopyOf(before[i]), results(i), now)
                else before[i]
      {
        var i :| i in todo;
        var delivery := new WebhookDelivery(CopyOf(rows[i]));
        var _ := delivery.Attempt(results(i));
        rows := rows[i := Row(if delivery.status != rows[i].status then delivery.status
            else rows[i].status, delivery.attempts, now)];
        todo := todo - {i};
      }
    }
  }

  lemma SizeSplit(a: set<Id>, b: set<Id>, all: set<Id>)
    requires a + b == all && a !! b
    ensures |all| == |a| + |b|
  {}

  // ------------------------------------------------------------- no starvation

  /** Pending rows at least as old as `r`: its oldest-first position, at worst. */
  ghost function Ahead(rows: map<Id, Row>, r: Id): set<Id>
    requires r in rows
  {
    set i | i in rows && i != r && IsPending(rows[i]) && rows[i].updatedAt <= rows[r].updatedAt
  }

  /** What happens around row `r`: a sweep that leaves it out, or anything that leaves it alone
      and stamps what it changes or adds with a later time. */
  datatype Tick = Sweep(chosen: set<Id>, results: Id -> Result, now: int) | Other(rows: map<Id, Row>)

  ghost predicate TickOk(rows: map<Id, Row>, t: Tick, r: Id, limit: nat)
    requires r in rows
  {
    match t
    case Sweep(chosen, _, now) => OldestFirst(rows, chosen, limit) && r !in chosen && now > rows[r].updatedAt
    case Other(rows') => r in rows' && rows'[r] == rows[r] && forall i :: i in rows' ==>
        (i in rows && rows'[i] == rows[i]) || rows'[i].updatedAt > rows[r].updatedAt
  }

  function AfterTick(rows: map<Id, Row>, t: Tick): map<Id, Row> {
    match t
    case Sweep(chosen, results, now) => Swept(rows, chosen, results, now)
    case Other(rows') => rows'
  }

  /** Ticks during which row `r` is never attempted. */
  ghost predicate Waiting(rows: map<Id, Row>, ticks: seq<Tick>, r: Id, limit: nat)
    requires r in rows
    decreases ticks
  {
    ticks == [] || (TickOk(rows, ticks[0], r, limit) && Waiting(AfterTick(rows, ticks[0]), ticks[1..], r, limit))
  }

  function Sweeps(ticks: seq<Tick>): nat {
    if ticks == [] then 0 else (if ticks[0].Sweep? then 1 else 0) + Sweeps(ticks[1..])
  }

  lemma SweepMovesUp(rows: map<Id, Row>, chosen: set<Id>, results: Id -> Result, now: int, r: Id, limit: nat)
    requires r in rows && IsPending(rows[r]) && OldestFirst(rows, chosen, limit) && r !in chosen
    requires now > rows[r].updatedAt
    ensures var rows' := Swept(rows, chosen, results, now);
      rows'[r] == rows[r] && |Ahead(rows', r)| + limit <= |Ahead(rows, r)|
  {
    var rows' := Swept(rows, chosen, results, now);
    assert r in AllPending(rows);
    assert chosen <= Ahead(rows, r);
    assert Ahead(rows', r) <= Ahead(rows, r) - chosen;
    SubsetSize(Ahead(rows', r), Ahead(rows, r) - chosen);
  }

  /** A pending row at oldest-first position `p` is attempted within p / limit + 1 sweeps, whatever
      new rows arrive and whatever happens to the others meanwhile. */
  lemma {:induction false} NotStarved(rows: map<Id, Row>, ticks: seq<Tick>, r: Id, limit: nat)
    requires r in rows && IsPending(rows[r]) && limit > 0 && Waiting(rows, ticks, r, limit)
    ensures Sweeps(ticks) * limit <= |Ahead(rows, r)|
    ensures Sweeps(ticks) <= |Ahead(rows, r)| / limit
    decreases ticks
  {
    if ticks != [] {
      var t, rows' := ticks[0], AfterTick(rows, ticks[0]);
      if t.Sweep? {
        SweepMovesUp(rows, t.chosen, t.results, t.now, r, limit);
      } else {
        SubsetSize(Ahead(rows', r), Ahead(rows, r));
      }
      NotStarved(rows', ticks[1..], r, limit);
    }
    DivBound(Sweeps(ticks), limit, |Ahead(rows, r)|);
  }

  lemma DivBound(a: nat, b: nat, c: nat)
    requires b > 0 && a * b <= c
    ensures a <= c / b
  {
    var q := c / b;
    assert c == q * b + c % b;
    if a > q {
      TimesMonotone(q + 1, a, b);
    }
  }

  lemma TimesMonotone(x: nat, y: nat, b: nat)
    requires x <= y
    ensures x * b <= y * b
  {}

  // ------------------------------------------------------------------ draining

  function Remaining(row: Row): nat {
    if IsPending(row) then MAX_ATTEMPTS - row.attempts else 0
  }

  /** Attempts that a set of rows can still use up. */
  ghost function Left(rows: map<Id, Row>, ids: set<Id>): nat
    requires ids <= rows.Keys
  {
    if ids == {} then 0
    else
      var i :| i in ids;
      Remaining(rows[i]) + Left(rows, ids - {i})
  }

  lemma {:induction false} LeftRemove(rows: map<Id, Row>, ids: set<Id>, i: Id)
    requires ids <= rows.Keys && i in ids
    ensures Left(rows, ids) == Remaining(rows[i]) + Left(rows, ids - {i})
    decreases ids
  {
    var j :| j in ids && Left(rows, ids) == Remaining(rows[j]) + Left(rows, ids - {j});
    if j != i {
      LeftRemove(rows, ids - {j}, i);
      LeftRemove(rows, ids - {i}, j);
      assert ids - {j} - {i} == ids - {i} - {j};
    }
  }

  lemma AttemptUsesUp(row: Row, r: Result, now: int)
    requires IsPending(row)
    ensures Remaining(Write(row, CopyOf(row), r, now)) < Remaining(row)
  {}

  /** Each attempted row has one attempt less to go, or none at all. */
  lemma {:induction false} SweepDrains(rows: map<Id, Row>, chosen: set<Id>, results: Id -> Result, now: int,
      ids: set<Id>)
    requires ids <= rows.Keys && chosen <= AllPending(rows)
    ensures Left(Swept(rows, chosen, results, now), ids) + |chosen * ids| <= Left(rows, ids)
    decreases ids
  {
    var rows' := Swept(rows, chosen, results, now);
    if ids == {} {
      assert chosen * ids == {};
    } else {
      var i :| i in ids;
      var rest := ids - {i};
      LeftRemove(rows, ids, i);
      LeftRemove(rows', ids, i);
      SweepDrains(rows, chosen, results, now, rest);
      if i in chosen {
        AttemptUsesUp(rows[i], results(i), now);
        assert chosen * ids == chosen * rest + {i};
      } else {
        assert chosen * ids == chosen * rest;
      }
      hide Left, Write, IsPending;
    }
  }

  lemma NothingLeft(rows: map<Id, Row>)
    requires Left(rows, rows.Keys) == 0
    ensures AllPending(rows) == {}
  {
    NonePending(rows, rows.Keys);
  }

  /** One sweep after another, with nothing else going on; each takes the oldest pending rows. */
  function AfterSweeps(rows: map<Id, Row>, sweeps: seq<Tick>): map<Id, Row>
    decreases sweeps
  {
    if sweeps == [] then rows else AfterSweeps(AfterTick(rows, sweeps[0]), sweeps[1..])
  }

  ghost predicate SweepsOnly(rows: map<Id, Row>, sweeps: seq<Tick>, limit: nat)
    decreases sweeps
  {
    sweeps == [] || (sweeps[0].Sweep? && OldestFirst(rows, sweeps[0].chosen, limit)
        && SweepsOnly(AfterTick(rows, sweeps[0]), sweeps[1..], limit))
  }

  /** A fixed set of rows drains: as many sweeps as there are attempts left leave nothing pending. */
  lemma {:induction false} DrainedWithin(rows: map<Id, Row>, sweeps: seq<Tick>, limit: nat)
    requires limit > 0 && SweepsOnly(rows, sweeps, limit) && |sweeps| >= Left(rows, rows.Keys)
    ensures AllPending(AfterSweeps(rows, sweeps)) == {}
    decreases sweeps
  {
    if sweeps == [] {
      NothingLeft(rows);
    } else {
      var t, rows' := sweeps[0], AfterTick(rows, sweeps[0]);
      SweepDrains(rows, t.chosen, t.results, t.now, rows.Keys);
      assert rows'.Keys == rows.Keys && t.chosen * rows.Keys == t.chosen;
      if AllPending(rows) == {} {
        assert t.chosen == {};
        assert rows' == rows;
        assert Left(rows, rows.Keys) == 0 by { LeftNothing(rows, rows.Keys); }
      } else {
        assert |t.chosen| > 0;
      }
      DrainedWithin(rows', sweeps[1..], limit);
    }
  }

  lemma {:induction false} LeftNothing(rows: map<Id, Row>, ids: set<Id>)
    requires ids <= rows.Keys && AllPending(rows) == {}
    ensures Left(rows, ids) == 0
    decreases ids
  {
    if ids != {} {
      var i :| i in ids;
      LeftRemove(rows, ids, i);
      LeftNothing(rows, ids - {i});
      assert i !in AllPending(rows);
    }
  }

  // ------------------------------------------- draining with workers interleaved

  /** The rows that a step writes back. */
  function WrittenBy(s: State, e: Step): set<Id> {
    if e.Commit? && e.job in s.jobs then s.jobs[e.job].Keys else {}
  }

  /** How many attempts on rows of `ids` a run of workers committed. */
  function Attempts(s: State, steps: seq<Step>, ids: set<Id>): nat {
    if steps == [] then 0
    else
      var i := |steps| - 1;
      Attempts(s, steps[..i], ids) + |WrittenBy(Run(s, steps[..i]), steps[i]) * ids|
  }

  // A commit of copies that are up to date is a sweep of exactly those rows.
  lemma CommitIsSweep(s: State, e: Step)
    requires UpToDate(s) && e.Commit? && e.job in s.jobs
    ensures Next(s, e).rows == Swept(s.rows, s.jobs[e.job].Keys, e.results, e.now)
    ensures s.jobs[e.job].Keys <= AllPending(s.rows)
  {
    hide Write, IsPending, Exclusive;
  }

  lemma StepDrains(s: State, e: Step, ids: set<Id>)
    requires UpToDate(s) && ids <= s.rows.Keys
    ensures ids <= Next(s, e).rows.Keys
    ensures Left(Next(s, e).rows, ids) + |WrittenBy(s, e) * ids| <= Left(s.rows, ids)
  {
    hide Left, Write, UpToDate, Swept;
    if e.Commit? && e.job in s.jobs {
      CommitIsSweep(s, e);
      SweepDrains(s.rows, s.jobs[e.job].Keys, e.results, e.now, ids);
    } else {
      assert WrittenBy(s, e) * ids == {};
      SameLeft(s.rows, Next(s, e).rows, ids);
    }
  }

  lemma {:induction false} SameLeft(a: map<Id, Row>, b: map<Id, Row>, ids: set<Id>)
    requires ids <= a.Keys && ids <= b.Keys && forall i :: i in ids ==> b[i] == a[i]
    ensures Left(b, ids) == Left(a, ids)
    decreases ids
  {
    hide Remaining;
    if ids != {} {
      var i :| i in ids;
      LeftRemove(a, ids, i);
      LeftRemove(b, ids, i);
      SameLeft(a, b, ids - {i});
    }
  }

  /** With deliver and sweep interleaved in any disciplined way, and whatever rows arrive, each
      committed attempt on a fixed set of rows takes at least one off the sum of its remaining
      attempts; when all of them are used up, none of its rows is pending. */
  lemma {:induction false} DisciplinedDrains(s: State, steps: seq<Step>, ids: set<Id>)
    requires UpToDate(s) && Disciplined(s, steps) && ids <= s.rows.Keys
    ensures ids <= Run(s, steps).rows.Keys
    ensures Left(Run(s, steps).rows, ids) + Attempts(s, steps, ids) <= Left(s.rows, ids)
    ensures Attempts(s, steps, ids) >= Left(s.rows, ids) ==> forall i :: i in ids ==> !IsPending(Run(s, steps).rows[i])
  {
    hide *;
    if steps == [] {
      RunNone(s);
      AttemptsLast(s, steps, ids);
    } else {
      var i := |steps| - 1;
      DisciplinedPrefix(s, steps);
      DisciplinedDrains(s, steps[..i], ids);
      DisciplinedSteady(s, steps[..i], 0);
      StepDrains(Run(s, steps[..i]), steps[i], ids);
      RunLast(s, steps);
      AttemptsLast(s, steps, ids);
    }
    if Attempts(s, steps, ids) >= Left(s.rows, ids) {
      NonePending(Run(s, steps).rows, ids);
    }
  }

  lemma AttemptsLast(s: State, steps: seq<Step>, ids: set<Id>)
    ensures steps == [] ==> Attempts(s, steps, ids) == 0
    ensures |steps| > 0 ==>
      Attempts(s, steps, ids) == Attempts(s, steps[..|steps| - 1], ids)
        + |WrittenBy(Run(s, steps[..|steps| - 1]), steps[|steps| - 1]) * ids|
  {
    hide Run, WrittenBy;
  }

  lemma NonePending(rows: map<Id, Row>, ids: set<Id>)
    requires ids <= rows.Keys && Left(rows, ids) == 0
    ensures forall i :: i in ids ==> !IsPending(rows[i])
  {
    forall i | i in ids ensures !IsPending(rows[i]) {
      LeftRemove(rows, ids, i);
    }
  }
}
