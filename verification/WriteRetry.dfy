/** `Db::with_write_retry` (crates/komo-store/src/db.rs): concurrent writers, each of which runs its whole
    transaction again when it lost a race.

    The engine is assumed to do what its optimistic transactions promise: a commit takes effect as a
    whole, or not at all; and it is refused if a row the transaction has read changed since. Steps of
    different writers interleave freely, and any statement may report a conflict on its own. */
module WriteRetry {
  import opened Text

  type Key = string
  type Value = string
  type Rows = map<Key, Value>

  datatype StoreError = Contended | Other(what: string)

  // ------------------------------------------------------------ back-off

  /** Times in nanoseconds; `DURATION_MAX` is the largest duration there is. */
  const DURATION_MAX: nat := U64_LIMIT * 1_000_000_000 - 1

  datatype RetryConfig = RetryConfig(baseDelay: nat, maxDelay: nat, maxRetries: nat)

  function Min(a: nat, b: nat): nat { if a <= b then a else b }

  function Pow2(n: nat): nat { if n == 0 then 1 else 2 * Pow2(n - 1) }

  function DelayFor(c: RetryConfig, attempt: nat): nat {
    Min(Min(c.baseDelay * Pow2(Min(attempt, 16)), DURATION_MAX), c.maxDelay)
  }

  lemma {:induction false} Pow2Grows(a: nat, b: nat)
    requires a <= b
    ensures 1 <= Pow2(a) <= Pow2(b)
    decreases b
  {
    if a < b {
      Pow2Grows(a, b - 1);
    } else if a > 0 {
      Pow2Grows(a - 1, a - 1);
    }
  }

  lemma Scaled(x: nat, a: nat, b: nat)
    requires a <= b
    ensures x * a <= x * b
  {
  }

  /** The waits, one from the other: the first is the base, up to the cap and the largest duration; each of the next
      sixteen is twice the one before, up to both; and then they stay. */
  lemma BackOffExactly(c: RetryConfig, a: nat)
    ensures DelayFor(c, 0) == Least3(c.baseDelay, c.maxDelay)
    ensures a < 16 ==> DelayFor(c, a + 1) == Least3(2 * DelayFor(c, a), c.maxDelay)
    ensures a >= 16 ==> DelayFor(c, a + 1) == DelayFor(c, a)
  {
    assert Pow2(0) == 1 && c.baseDelay * 1 == c.baseDelay;
    if a < 16 {
      Doubled(a);
      assert c.baseDelay * (2 * Pow2(a)) == 2 * (c.baseDelay * Pow2(a));
    }
  }

  /** The least of a wait, its cap, and 2^64 - 1 seconds and all but the last nanosecond of another. */
  function Least3(wait: nat, cap: nat): nat {
    var longest := 18446744073709551615 * 1_000_000_000 + 999_999_999;
    if wait <= cap && wait <= longest then wait else if cap <= longest then cap else longest
  }

  /** The wait never shrinks from one attempt to the next and never exceeds its cap; it doubles until it
      reaches the cap or the sixteenth doubling. */
  lemma BackOffIsMonotone(c: RetryConfig, a: nat, b: nat)
    requires a <= b
    ensures DelayFor(c, a) <= DelayFor(c, b) <= c.maxDelay
    ensures c.baseDelay <= c.maxDelay && c.baseDelay <= DURATION_MAX ==> c.baseDelay <= DelayFor(c, a)
    ensures a < 16 && 2 * DelayFor(c, a) <= c.maxDelay && 2 * DelayFor(c, a) <= DURATION_MAX && DelayFor(c, a) < c.maxDelay ==>
              DelayFor(c, a + 1) == 2 * DelayFor(c, a)
  {
    hide Pow2;
    Pow2Grows(Min(a, 16), Min(b, 16));
    Scaled(c.baseDelay, Pow2(Min(a, 16)), Pow2(Min(b, 16)));
    Scaled(c.baseDelay, 1, Pow2(Min(a, 16)));
    Doubled(Min(a, 16));
    assert c.baseDelay * (2 * Pow2(Min(a, 16))) == 2 * (c.baseDelay * Pow2(Min(a, 16)));
  }

  lemma Doubled(n: nat)
    ensures Pow2(n + 1) == 2 * Pow2(n)
  {
  }

  // ------------------------------------------------------------ one call

  /** What the call does after one transaction. */
  datatype Next = Answer(result: Result<string, StoreError>) | Again(delay: nat)

  function After(c: RetryConfig, attempt: nat, outcome: Result<string, StoreError>): Next {
    if outcome.Err? && outcome.error.Contended? && attempt < c.maxRetries then Again(DelayFor(c, attempt)) else Answer(outcome)
  }

  /** The loop of one call, whose transactions come out as `outcomes` says. It runs at most
      `maxRetries + 1` of them, stops at the first that is not a conflict, and answers with the last. */
  method Retry(c: RetryConfig, outcomes: nat -> Result<string, StoreError>)
    returns (result: Result<string, StoreError>, runs: nat, slept: seq<nat>)
    ensures 1 <= runs <= c.maxRetries + 1 && result == outcomes(runs - 1)
    ensures forall i :: 0 <= i < runs - 1 ==> outcomes(i) == Err(Contended)
    ensures result == Err(Contended) ==> runs == c.maxRetries + 1
    ensures |slept| == runs - 1 && forall i :: 0 <= i < |slept| ==> slept[i] == DelayFor(c, i)
  {
    var attempt := 0;
    slept := [];
    while true
      invariant attempt <= c.maxRetries && |slept| == attempt
      invariant forall i :: 0 <= i < attempt ==> outcomes(i) == Err(Contended) && slept[i] == DelayFor(c, i)
      decreases c.maxRetries - attempt
    {
      var next := After(c, attempt, outcomes(attempt));
      if next.Answer? { return next.result, attempt + 1, slept; }
      slept := slept + [next.delay];
      attempt := attempt + 1;
    }
  }

  // ------------------------------------------------------------ transactions

  datatype Deed = Ask(key: Key) | Finish(writes: map<Key, Option<Value>>, answer: string) | Refuse(what: string)

  /** What a caller does inside its transaction: it decides on nothing but the answers to what it asked
      there, and it asks at most `depth` times. Its writes count only when it finishes. */
  datatype Program = Program(depth: nat, decide: seq<Option<Value>> -> Deed)

  function Decide(p: Program, seen: seq<Option<Value>>): Deed {
    var deed := p.decide(seen);
    if deed.Ask? && |seen| >= p.depth then Refuse("too many reads") else deed
  }

  function Lookup(rows: Rows, key: Key): Option<Value> {
    if key in rows then Some(rows[key]) else None
  }

  function Assign(rows: Rows, writes: map<Key, Option<Value>>): Rows {
    map k | k in rows.Keys + writes.Keys && (k in writes ==> writes[k].Some?) :: if k in writes then writes[k].value else rows[k]
  }

  /** The program with the rows all to itself: its answer, and the rows it leaves. */
  function Alone(p: Program, seen: seq<Option<Value>>, rows: Rows): (Result<string, StoreError>, Rows)
    decreases p.depth - |seen|
  {
    match Decide(p, seen)
    case Ask(key) => Alone(p, seen + [Lookup(rows, key)], rows)
    case Finish(writes, answer) => (Ok(answer), Assign(rows, writes))
    case Refuse(what) => (Err(Other(what)), rows)
  }

  // ------------------------------------------------------------ the machine

  type Caller = nat

  datatype Phase =
    | Resting
    | Open(asked: seq<Key>, seen: seq<Option<Value>>, stamps: seq<nat>)
    | Ended(result: Result<string, StoreError>)

  datatype Task = Task(program: Program, attempt: nat, runs: nat, phase: Phase)

  /** `stamps` counts the commits that wrote a row. `order` records the callers whose commit took effect. */
  datatype State = State(rows: Rows, stamps: map<Key, nat>, tasks: map<Caller, Task>, order: seq<Caller>)

  datatype Step =
    | Start(t: Caller)
    | StartFails(t: Caller, error: StoreError)
    | Read(t: Caller)
    | Breaks(t: Caller, error: StoreError)
    | Ends(t: Caller)
    | Commit(t: Caller)

  function Stamp(s: State, key: Key): nat { if key in s.stamps then s.stamps[key] else 0 }

  /** No row the transaction read has been written since. */
  predicate Fresh(s: State, p: Phase)
    requires p.Open? && |p.asked| == |p.stamps|
  {
    forall i :: 0 <= i < |p.asked| ==> Stamp(s, p.asked[i]) == p.stamps[i]
  }

  predicate Enabled(s: State, a: Step) {
    a.t in s.tasks &&
    var k := s.tasks[a.t];
    match a
    case Start(_) => k.phase.Resting?
    case StartFails(_, _) => k.phase.Resting?
    case Read(_) => k.phase.Open? && Decide(k.program, k.phase.seen).Ask?
    case Breaks(_, _) => k.phase.Open?
    case Ends(_) => k.phase.Open? && Decide(k.program, k.phase.seen).Refuse?
    case Commit(_) => k.phase.Open? && |k.phase.asked| == |k.phase.stamps| && Decide(k.program, k.phase.seen).Finish?
  }

  function Concluded(c: RetryConfig, k: Task, outcome: Result<string, StoreError>): Task {
    match After(c, k.attempt, outcome)
    case Answer(result) => k.(phase := Ended(result))
    case Again(_) => k.(phase := Resting, attempt := k.attempt + 1)
  }

  function Set(s: State, t: Caller, k: Task): State { s.(tasks := s.tasks[t := k]) }

  function Bump(stamps: map<Key, nat>, keys: set<Key>): map<Key, nat> {
    map k | k in stamps.Keys + keys :: (if k in stamps then stamps[k] else 0) + if k in keys then 1 else 0
  }

  function Apply(c: RetryConfig, s: State, a: Step): State
    requires Enabled(s, a)
  {
    var k := s.tasks[a.t];
    match a
    case Start(t) => Set(s, t, k.(runs := k.runs + 1, phase := Open([], [], [])))
    case StartFails(t, error) => Set(s, t, Concluded(c, k, Err(error)))
    case Read(t) => Set(s, t, k.(phase := Asked(s, k.phase, Decide(k.program, k.phase.seen).key)))
    case Breaks(t, error) => Set(s, t, Concluded(c, k, Err(error)))
    case Ends(t) => Set(s, t, Concluded(c, k, Err(Other(Decide(k.program, k.phase.seen).what))))
    case Commit(t) =>
      if Fresh(s, k.phase) then Committed(s, t, Decide(k.program, k.phase.seen))
      else Set(s, t, Concluded(c, k, Err(Contended)))
  }

  function Asked(s: State, p: Phase, key: Key): Phase
    requires p.Open?
  {
    Open(p.asked + [key], p.seen + [Lookup(s.rows, key)], p.stamps + [Stamp(s, key)])
  }

  function Committed(s: State, t: Caller, deed: Deed): State
    requires t in s.tasks && deed.Finish?
  {
    State(Assign(s.rows, deed.writes), Bump(s.stamps, deed.writes.Keys),
          s.tasks[t := s.tasks[t].(phase := Ended(Ok(deed.answer)))], s.order + [t])
  }

  // ------------------------------------------------------------ what a transaction has seen

  /** The questions are the program's own, and each answer still stands if its row was not written since. */
  predicate Traced(s: State, p: Program, f: Phase)
    requires f.Open?
  {
    && |f.asked| == |f.seen| == |f.stamps|
    && forall i :: 0 <= i < |f.asked| ==>
         && Decide(p, f.seen[..i]) == Ask(f.asked[i])
         && f.stamps[i] <= Stamp(s, f.asked[i])
         && (Stamp(s, f.asked[i]) == f.stamps[i] ==> Lookup(s.rows, f.asked[i]) == f.seen[i])
  }

  lemma {:induction false} TraceReplays(p: Program, f: Phase, rows: Rows, n: nat)
    requires f.Open? && |f.asked| == |f.seen| && n <= |f.seen|
    requires forall i :: 0 <= i < |f.asked| ==> Decide(p, f.seen[..i]) == Ask(f.asked[i]) && Lookup(rows, f.asked[i]) == f.seen[i]
    ensures Alone(p, f.seen[..n], rows) == Alone(p, f.seen, rows)
    decreases |f.seen| - n
  {
    if n < |f.seen| {
      TraceReplays(p, f, rows, n + 1);
      assert f.seen[..n] + [f.seen[n]] == f.seen[..n + 1];
    } else {
      assert f.seen[..n] == f.seen;
    }
  }

  /** A commit that is accepted does what the program alone would do to the rows as they are now. */
  lemma CommitIsAlone(s: State, p: Program, f: Phase)
    requires f.Open? && Traced(s, p, f) && Fresh(s, f) && Decide(p, f.seen).Finish?
    ensures Alone(p, [], s.rows) == (Ok(Decide(p, f.seen).answer), Assign(s.rows, Decide(p, f.seen).writes))
  {
    TraceReplays(p, f, s.rows, 0);
    assert f.seen[..0] == [];
  }

  lemma TracedRead(s: State, p: Program, f: Phase)
    requires f.Open? && Traced(s, p, f) && Decide(p, f.seen).Ask?
    ensures Traced(s, p, Asked(s, f, Decide(p, f.seen).key))
  {
    var f' := Asked(s, f, Decide(p, f.seen).key);
    forall i | 0 <= i < |f'.asked|
      ensures Decide(p, f'.seen[..i]) == Ask(f'.asked[i])
    {
      if i < |f.asked| {
        assert f'.seen[..i] == f.seen[..i];
      } else {
        assert f'.seen[..i] == f.seen;
      }
    }
  }

  lemma TracedCommit(s: State, p: Program, f: Phase, t: Caller, deed: Deed)
    requires t in s.tasks && deed.Finish? && f.Open? && Traced(s, p, f)
    ensures Traced(Committed(s, t, deed), p, f)
  {
    hide Decide;
    var s' := Committed(s, t, deed);
    forall i | 0 <= i < |f.asked|
      ensures f.stamps[i] <= Stamp(s', f.asked[i])
      ensures Stamp(s', f.asked[i]) == f.stamps[i] ==> Lookup(s'.rows, f.asked[i]) == f.seen[i]
    {
      var key := f.asked[i];
      assert Stamp(s', key) == Stamp(s, key) + if key in deed.writes then 1 else 0;
    }
  }

  // ------------------------------------------------------------ the invariant

  /** The programs of these callers, one after another. */
  function Serial(tasks: map<Caller, Task>, order: seq<Caller>, rows: Rows): Rows
    requires forall t :: t in order ==> t in tasks
  {
    if order == [] then rows
    else
      var last := order[|order| - 1];
      Alone(tasks[last].program, [], Serial(tasks, order[..|order| - 1], rows)).1
  }

  /** The callers in `order` are exactly those that answered Ok, each once; and each answer is the one
      the caller's program gives alone, at its place in the order. */
  ghost predicate Serialized(s: State, initial: Rows) {
    && (forall t :: t in s.order ==> t in s.tasks)
    && s.rows == Serial(s.tasks, s.order, initial)
    && (forall i, j :: 0 <= i < j < |s.order| ==> s.order[i] != s.order[j])
    && (forall t :: t in s.tasks ==> (t in s.order <==> s.tasks[t].phase.Ended? && s.tasks[t].phase.result.Ok?))
    && (forall i :: 0 <= i < |s.order| ==>
          s.tasks[s.order[i]].phase ==
          Ended(Alone(s.tasks[s.order[i]].program, [], Serial(s.tasks, s.order[..i], initial)).0))
  }

  predicate TaskOk(c: RetryConfig, s: State, k: Task) {
    && k.attempt <= c.maxRetries
    && k.runs <= k.attempt + (if k.phase.Resting? then 0 else 1)
    && (k.phase.Open? ==> Traced(s, k.program, k.phase))
  }

  ghost predicate Inv(c: RetryConfig, s: State, initial: Rows) {
    Serialized(s, initial) && forall t :: t in s.tasks ==> TaskOk(c, s, s.tasks[t])
  }

  /** Serial execution looks at programs only. */
  lemma {:induction false} SerialSame(tasks: map<Caller, Task>, tasks': map<Caller, Task>, order: seq<Caller>, rows: Rows)
    requires forall t :: t in order ==> t in tasks && t in tasks' && tasks[t].program == tasks'[t].program
    ensures Serial(tasks, order, rows) == Serial(tasks', order, rows)
  {
    if order != [] {
      SerialSame(tasks, tasks', order[..|order| - 1], rows);
    }
  }

  /** A task that has not succeeded changes: nothing else does. */
  lemma SetKeeps(c: RetryConfig, s: State, initial: Rows, t: Caller, k: Task)
    requires Inv(c, s, initial) && t in s.tasks && t !in s.order
    requires k.program == s.tasks[t].program && TaskOk(c, s, k)
    requires !(k.phase.Ended? && k.phase.result.Ok?)
    ensures Inv(c, Set(s, t, k), initial)
  {
    hide Alone, Traced, Decide;
    var s' := Set(s, t, k);
    SerialSame(s.tasks, s'.tasks, s.order, initial);
    forall i | 0 <= i < |s.order|
      ensures s'.tasks[s.order[i]].phase ==
              Ended(Alone(s'.tasks[s.order[i]].program, [], Serial(s'.tasks, s.order[..i], initial)).0)
    {
      SerialSame(s.tasks, s'.tasks, s.order[..i], initial);
      assert s.order[i] in s.order;
    }
    forall u | u in s'.tasks
      ensures TaskOk(c, s', s'.tasks[u])
    {
      TaskOkSame(c, s, s', s'.tasks[u]);
    }
  }

  lemma TaskOkSame(c: RetryConfig, s: State, s': State, k: Task)
    requires TaskOk(c, s, k) && s'.rows == s.rows && s'.stamps == s.stamps
    ensures TaskOk(c, s', k)
  {
    hide Decide;
  }

  lemma SerialPrefix(s: State, s': State, t: Caller, initial: Rows, i: nat)
    requires (forall u :: u in s.order ==> u in s.tasks) && t in s.tasks && i <= |s.order|
    requires s'.order == s.order + [t]
    requires t in s'.tasks && s'.tasks == s.tasks[t := s.tasks[t].(phase := s'.tasks[t].phase)]
    ensures (forall u :: u in s'.order[..i] ==> u in s'.tasks) && s'.order[..i] == s.order[..i]
    ensures Serial(s'.tasks, s'.order[..i], initial) == Serial(s.tasks, s.order[..i], initial)
  {
    assert s'.order[..i] == s.order[..i];
    SerialSame(s.tasks, s'.tasks, s.order[..i], initial);
  }

  /** One more caller at the end of the order. */
  lemma Appended(s: State, s': State, t: Caller, initial: Rows, answer: string)
    requires Serialized(s, initial) && t in s.tasks && t !in s.order
    requires s'.order == s.order + [t]
    requires s'.tasks == s.tasks[t := s.tasks[t].(phase := Ended(Ok(answer)))]
    requires Alone(s.tasks[t].program, [], s.rows) == (Ok(answer), s'.rows)
    ensures Serialized(s', initial)
  {
    hide Alone, Serial;
    assert s.order[..|s.order|] == s.order;
    SerialPrefix(s, s', t, initial, |s.order|);
    SerialLast(s'.tasks, s.order, t, initial);
    forall i | 0 <= i < |s'.order|
      ensures s'.tasks[s'.order[i]].phase ==
              Ended(Alone(s'.tasks[s'.order[i]].program, [], Serial(s'.tasks, s'.order[..i], initial)).0)
    {
      if i < |s.order| {
        SerialPrefix(s, s', t, initial, i);
        assert s.order[i] in s.order;
      }
    }
    forall i, j | 0 <= i < j < |s'.order|
      ensures s'.order[i] != s'.order[j]
    {
      assert s.order[i] in s.order;
    }
  }

  lemma SerialLast(tasks: map<Caller, Task>, order: seq<Caller>, t: Caller, rows: Rows)
    requires t in tasks && forall u :: u in order ==> u in tasks
    ensures (forall u :: u in order + [t] ==> u in tasks) &&
            Serial(tasks, order + [t], rows) == Alone(tasks[t].program, [], Serial(tasks, order, rows)).1
  {
    assert (order + [t])[..|order|] == order;
  }

  lemma CommitSerial(c: RetryConfig, s: State, initial: Rows, t: Caller)
    requires Inv(c, s, initial) && Enabled(s, Commit(t)) && Fresh(s, s.tasks[t].phase)
    ensures Serialized(Committed(s, t, Decide(s.tasks[t].program, s.tasks[t].phase.seen)), initial)
  {
    hide Alone, Decide, Fresh, Assign, Bump, Traced, Serialized;
    var k := s.tasks[t];
    var deed := Decide(k.program, k.phase.seen);
    NotYet(s, initial, Commit(t));
    assert TaskOk(c, s, k);
    CommitIsAlone(s, k.program, k.phase);
    Appended(s, Committed(s, t, deed), t, initial, deed.answer);
  }

  lemma CommitTasks(c: RetryConfig, s: State, initial: Rows, t: Caller)
    requires Inv(c, s, initial) && Enabled(s, Commit(t))
    ensures var s' := Committed(s, t, Decide(s.tasks[t].program, s.tasks[t].phase.seen));
            forall u :: u in s'.tasks ==> TaskOk(c, s', s'.tasks[u])
  {
    hide Serialized, Decide, Assign, Bump, Traced;
    var s' := Committed(s, t, Decide(s.tasks[t].program, s.tasks[t].phase.seen));
    forall u | u in s'.tasks
      ensures TaskOk(c, s', s'.tasks[u])
    {
      assert TaskOk(c, s, s.tasks[u]);
      if s'.tasks[u].phase.Open? {
        TracedCommit(s, s.tasks[u].program, s.tasks[u].phase, t, Decide(s.tasks[t].program, s.tasks[t].phase.seen));
      }
    }
  }

  lemma StepKeeps(c: RetryConfig, s: State, initial: Rows, a: Step)
    requires Inv(c, s, initial) && Enabled(s, a)
    ensures Inv(c, Apply(c, s, a), initial)
  {
    hide Alone, Decide, Fresh, Serialized;
    var k := s.tasks[a.t];
    NotYet(s, initial, a);
    if a.Commit? && Fresh(s, k.phase) {
      CommitSerial(c, s, initial, a.t);
      CommitTasks(c, s, initial, a.t);
    } else {
      if a.Read? {
        TracedRead(s, k.program, k.phase);
      }
      SetKeeps(c, s, initial, a.t, Apply(c, s, a).tasks[a.t]);
    }
  }

  lemma NotYet(s: State, initial: Rows, a: Step)
    requires Serialized(s, initial) && Enabled(s, a)
    ensures a.t !in s.order
  {
    hide Alone, Decide;
  }

  // ------------------------------------------------------------ runs

  predicate Idle(s: State) {
    s.stamps == map[] && s.order == [] &&
    forall t :: t in s.tasks ==> s.tasks[t].phase.Resting? && s.tasks[t].attempt == 0 && s.tasks[t].runs == 0
  }

  ghost predicate Run(c: RetryConfig, states: seq<State>, steps: seq<Step>) {
    && |states| == |steps| + 1
    && Idle(states[0])
    && forall i :: 0 <= i < |steps| ==> Enabled(states[i], steps[i]) && states[i + 1] == Apply(c, states[i], steps[i])
  }

  lemma {:induction false} RunKeeps(c: RetryConfig, states: seq<State>, steps: seq<Step>, n: nat)
    requires Run(c, states, steps) && n < |states|
    ensures Inv(c, states[n], states[0].rows)
  {
    if n > 0 {
      RunKeeps(c, states, steps, n - 1);
      assert Enabled(states[n - 1], steps[n - 1]) && states[n] == Apply(c, states[n - 1], steps[n - 1]);
      StepKeeps(c, states[n - 1], states[0].rows, steps[n - 1]);
    }
  }

  /** Main result: however the writers interleave, the rows are what the programs of exactly the callers
      that answered Ok give when run once each, one after another, in the order of their commits; each of
      them got the answer its program gives there; and no program ran more than `maxRetries + 1` times. */
  lemma WritesApplyOnce(c: RetryConfig, states: seq<State>, steps: seq<Step>, n: nat)
    requires Run(c, states, steps) && n < |states|
    ensures Serialized(states[n], states[0].rows)
    ensures forall t :: t in states[n].tasks ==> states[n].tasks[t].runs <= c.maxRetries + 1
  {
    RunKeeps(c, states, steps, n);
  }

  // ------------------------------------------------------------ what a step does, row by row

  /** A program decides on its own, as long as it keeps to its number of questions. */
  lemma DecidesItself(p: Program, seen: seq<Option<Value>>)
    ensures |seen| < p.depth || !p.decide(seen).Ask? ==> Decide(p, seen) == p.decide(seen)
    ensures |seen| >= p.depth ==> !Decide(p, seen).Ask?
  {
  }

  /** The engine accepts this commit. */
  predicate Accepted(s: State, a: Step) {
    Enabled(s, a) && a.Commit? && Fresh(s, s.tasks[a.t].phase)
  }

  /** What an accepted commit was asked to write, and to answer. */
  function Deal(s: State, a: Step): (deed: Deed)
    requires Accepted(s, a)
    ensures deed.Finish?
  {
    Decide(s.tasks[a.t].program, s.tasks[a.t].phase.seen)
  }

  predicate WritesRow(s: State, a: Step, key: Key) {
    Accepted(s, a) && key in Deal(s, a).writes
  }

  /** Main result: an accepted commit leaves in each row what it was asked to write there, nothing if that was
      a removal, and leaves every other row; no other step changes a row. */
  lemma RowsAfter(c: RetryConfig, s: State, a: Step, key: Key)
    requires Enabled(s, a)
    ensures Lookup(Apply(c, s, a).rows, key) == if WritesRow(s, a, key) then Deal(s, a).writes[key] else Lookup(s.rows, key)
  {
    hide Decide, Concluded, Bump, Asked;
  }

  lemma LookupIs(rows: Rows, key: Key)
    ensures Lookup(rows, key).Some? <==> key in rows
    ensures key in rows ==> Lookup(rows, key).value == rows[key]
  {
  }

  /** The caller of an accepted commit has its answer and its place in the order; a refused one starts over
      while it may, and nobody else notices either. */
  lemma CommitEnds(c: RetryConfig, s: State, t: Caller)
    requires Enabled(s, Commit(t))
    ensures var k, k' := s.tasks[t], Apply(c, s, Commit(t)).tasks[t];
            if Accepted(s, Commit(t))
            then k' == k.(phase := Ended(Ok(Deal(s, Commit(t)).answer)))
            else if k.attempt < c.maxRetries then k' == k.(phase := Resting, attempt := k.attempt + 1)
            else k' == k.(phase := Ended(Err(Contended)))
    ensures Apply(c, s, Commit(t)).order == if Accepted(s, Commit(t)) then s.order + [t] else s.order
    ensures Apply(c, s, Commit(t)).tasks.Keys == s.tasks.Keys
    ensures forall u :: u in s.tasks && u != t ==> Apply(c, s, Commit(t)).tasks[u] == s.tasks[u]
  {
    hide Decide, Assign, Bump;
  }

  /** Any other step is its caller's own affair: a conflict starts it over while it may, another error ends it. */
  lemma OwnAffair(c: RetryConfig, s: State, a: Step)
    requires Enabled(s, a) && !a.Commit?
    ensures var s', k := Apply(c, s, a), s.tasks[a.t];
            && s'.rows == s.rows && s'.stamps == s.stamps && s'.order == s.order && s'.tasks.Keys == s.tasks.Keys
            && (forall u :: u in s.tasks && u != a.t ==> s'.tasks[u] == s.tasks[u])
            && (a.Start? ==> s'.tasks[a.t] == k.(phase := Open([], [], []), runs := k.runs + 1))
            && (a.StartFails? || a.Breaks? ==>
                  s'.tasks[a.t] == if a.error.Contended? && k.attempt < c.maxRetries
                                   then k.(phase := Resting, attempt := k.attempt + 1) else k.(phase := Ended(Err(a.error))))
            && (a.Ends? ==> s'.tasks[a.t].phase.Ended? && s'.tasks[a.t].phase.result.Err? && s'.tasks[a.t].phase.result.error.Other?)
  {
    hide Assign, Bump;
  }

  /** Main result, row by row and without naming how a commit writes: over every run a row holds what the
      last accepted commit that wrote it was asked to write there, and what it held at first if none did. */
  lemma {:induction false} LastWriteStands(c: RetryConfig, states: seq<State>, steps: seq<Step>, n: nat, key: Key)
    returns (at: Option<nat>)
    requires Run(c, states, steps) && n < |states|
    ensures at.None? ==> Lookup(states[n].rows, key) == Lookup(states[0].rows, key)
    ensures at.None? ==> forall j :: 0 <= j < n ==> !WritesRow(states[j], steps[j], key)
    ensures at.Some? ==>
              && at.value < n && WritesRow(states[at.value], steps[at.value], key)
              && Lookup(states[n].rows, key) == Deal(states[at.value], steps[at.value]).writes[key]
              && (forall j :: at.value < j < n ==> !WritesRow(states[j], steps[j], key))
  {
    hide Apply, WritesRow, Lookup, Enabled, Decide, Accepted;
    if n == 0 {
      at := None;
    } else {
      assert Enabled(states[n - 1], steps[n - 1]) && states[n] == Apply(c, states[n - 1], steps[n - 1]);
      RowsAfter(c, states[n - 1], steps[n - 1], key);
      if WritesRow(states[n - 1], steps[n - 1], key) {
        at := Some(n - 1);
        assert Accepted(states[n - 1], steps[n - 1]) by { WritingIsAccepted(states[n - 1], steps[n - 1], key); }
      } else {
        at := LastWriteStands(c, states, steps, n - 1, key);
      }
    }
  }

  lemma WritingIsAccepted(s: State, a: Step, key: Key)
    requires WritesRow(s, a, key)
    ensures Accepted(s, a) && key in Deal(s, a).writes
  {
  }

  /** The callers whose commits were accepted, in the order of those steps. */
  function Committers(states: seq<State>, steps: seq<Step>, n: nat): seq<Caller>
    requires n <= |states| && n <= |steps|
  {
    if n == 0 then []
    else Committers(states, steps, n - 1) + if Accepted(states[n - 1], steps[n - 1]) then [steps[n - 1].t] else []
  }

  /** The order that the serial result goes by is the order of the accepted commits. */
  lemma {:induction false} OrderIsOfCommits(c: RetryConfig, states: seq<State>, steps: seq<Step>, n: nat)
    requires Run(c, states, steps) && n < |states|
    ensures states[n].order == Committers(states, steps, n)
  {
    hide Apply, Enabled, Accepted;
    if n > 0 {
      OrderIsOfCommits(c, states, steps, n - 1);
      assert Enabled(states[n - 1], steps[n - 1]) && states[n] == Apply(c, states[n - 1], steps[n - 1]);
      OrderNext(c, states[n - 1], steps[n - 1]);
    }
  }

  lemma OrderNext(c: RetryConfig, s: State, a: Step)
    requires Enabled(s, a)
    ensures Apply(c, s, a).order == s.order + if Accepted(s, a) then [a.t] else []
  {
    hide Decide, Assign, Bump;
  }

  // ------------------------------------------------------------ when a commit is accepted

  /** How many accepted commits have written a row. */
  function Writes(states: seq<State>, steps: seq<Step>, n: nat, key: Key): nat
    requires n <= |states| && n <= |steps|
  {
    if n == 0 then 0 else Writes(states, steps, n - 1, key) + if WritesRow(states[n - 1], steps[n - 1], key) then 1 else 0
  }

  lemma {:induction false} StampCounts(c: RetryConfig, states: seq<State>, steps: seq<Step>, n: nat, key: Key)
    requires Run(c, states, steps) && n < |states|
    ensures Stamp(states[n], key) == Writes(states, steps, n, key)
  {
    hide Apply, Enabled, WritesRow, Stamp;
    if n > 0 {
      StampCounts(c, states, steps, n - 1, key);
      assert Enabled(states[n - 1], steps[n - 1]) && states[n] == Apply(c, states[n - 1], steps[n - 1]);
      StampNext(c, states[n - 1], steps[n - 1], key);
    } else {
      NoStamps(states[0], key);
    }
  }

  lemma NoStamps(s: State, key: Key)
    requires Idle(s)
    ensures Stamp(s, key) == 0
  {
  }

  lemma StampNext(c: RetryConfig, s: State, a: Step, key: Key)
    requires Enabled(s, a)
    ensures Stamp(Apply(c, s, a), key) == Stamp(s, key) + if WritesRow(s, a, key) then 1 else 0
  {
    hide Decide, Assign, Concluded;
  }

  lemma {:induction false} WritesGrow(states: seq<State>, steps: seq<Step>, m: nat, n: nat, key: Key)
    requires m <= n <= |steps| && n <= |states|
    ensures Writes(states, steps, m, key) <= Writes(states, steps, n, key)
    ensures Writes(states, steps, m, key) == Writes(states, steps, n, key) <==>
            forall j :: m <= j < n ==> !WritesRow(states[j], steps[j], key)
  {
    hide WritesRow;
    if m < n {
      WritesGrow(states, steps, m, n - 1, key);
    }
  }

  /** Question `i` of the transaction that `t` has open was asked by this step. */
  predicate AskedBy(states: seq<State>, steps: seq<Step>, j: nat, n: nat, t: Caller, i: nat)
    requires j < n < |states| && n <= |steps|
    requires t in states[n].tasks && states[n].tasks[t].phase.Open? && i < |states[n].tasks[t].phase.asked|
  {
    && steps[j] == Read(t) && t in states[j].tasks && states[j].tasks[t].phase.Open?
    && |states[j].tasks[t].phase.asked| == i
    && i < |states[n].tasks[t].phase.stamps|
    && states[n].tasks[t].phase.stamps[i] == Stamp(states[j], states[n].tasks[t].phase.asked[i])
  }

  /** Every question of an open transaction has its step. */
  lemma {:induction false} WhenAsked(c: RetryConfig, states: seq<State>, steps: seq<Step>, n: nat, t: Caller, i: nat) returns (j: nat)
    requires Run(c, states, steps) && n < |states| && t in states[n].tasks && states[n].tasks[t].phase.Open?
    requires i < |states[n].tasks[t].phase.asked|
    ensures j < n && AskedBy(states, steps, j, n, t, i)
  {
    hide Decide, Concluded, Stamp, Fresh, Lookup, Committed;
    assert n > 0;
    assert Enabled(states[n - 1], steps[n - 1]) && states[n] == Apply(c, states[n - 1], steps[n - 1]);
    PhaseNext(c, states[n - 1], steps[n - 1], t);
    var was, now := states[n - 1].tasks[t].phase, states[n].tasks[t].phase;
    if now == was {
      j := WhenAsked(c, states, steps, n - 1, t, i);
    } else {
      RunKeeps(c, states, steps, n - 1);
      assert TaskOk(c, states[n - 1], states[n - 1].tasks[t]);
      if i < |was.asked| {
        j := WhenAsked(c, states, steps, n - 1, t, i);
      } else {
        j := n - 1;
      }
    }
  }

  /** A transaction is open after a step because nothing happened to it, or it has just begun, or asked. */
  lemma PhaseNext(c: RetryConfig, s: State, a: Step, t: Caller)
    requires Enabled(s, a) && t in Apply(c, s, a).tasks && Apply(c, s, a).tasks[t].phase.Open?
    ensures t in s.tasks
    ensures var was, now := s.tasks[t].phase, Apply(c, s, a).tasks[t].phase;
            || now == was || now == Open([], [], [])
            || (a == Read(t) && was.Open? && now == Asked(s, was, Decide(s.tasks[t].program, was.seen).key))
  {
    hide Decide, Assign, Bump, Fresh;
  }

  /** No accepted commit has written the row since question `i` was asked. */
  ghost predicate Undisturbed(states: seq<State>, steps: seq<Step>, n: nat, t: Caller, i: nat)
    requires n < |states| && n <= |steps|
    requires t in states[n].tasks && states[n].tasks[t].phase.Open? && i < |states[n].tasks[t].phase.asked|
  {
    exists j: nat :: j < n && AskedBy(states, steps, j, n, t, i)
                     && forall k :: j <= k < n ==> !WritesRow(states[k], steps[k], states[n].tasks[t].phase.asked[i])
  }

  /** Main result: the engine accepts a commit if and only if no row that the transaction has read has been
      written by an accepted commit since. */
  lemma AcceptedExactly(c: RetryConfig, states: seq<State>, steps: seq<Step>, n: nat, t: Caller)
    requires Run(c, states, steps) && n < |states| && Enabled(states[n], Commit(t))
    ensures Accepted(states[n], Commit(t)) <==>
            forall i :: 0 <= i < |states[n].tasks[t].phase.asked| ==> Undisturbed(states, steps, n, t, i)
  {
    hide Decide, Stamp, AskedBy, WritesRow, Apply;
    var f := states[n].tasks[t].phase;
    forall i | 0 <= i < |f.asked|
      ensures Stamp(states[n], f.asked[i]) == f.stamps[i] <==> Undisturbed(states, steps, n, t, i)
    {
      StampStands(c, states, steps, n, t, i);
    }
  }

  lemma StampStands(c: RetryConfig, states: seq<State>, steps: seq<Step>, n: nat, t: Caller, i: nat)
    requires Run(c, states, steps) && n < |states| && t in states[n].tasks && states[n].tasks[t].phase.Open?
    requires i < |states[n].tasks[t].phase.asked| == |states[n].tasks[t].phase.stamps|
    ensures Stamp(states[n], states[n].tasks[t].phase.asked[i]) == states[n].tasks[t].phase.stamps[i] <==>
            Undisturbed(states, steps, n, t, i)
  {
    hide Decide, Stamp, WritesRow, Apply, Enabled;
    var f := states[n].tasks[t].phase;
    var key := f.asked[i];
    StampCounts(c, states, steps, n, key);
    var j := WhenAsked(c, states, steps, n, t, i);
    StampCounts(c, states, steps, j, key);
    WritesGrow(states, steps, j, n, key);
    if Undisturbed(states, steps, n, t, i) {
      var k: nat :| k < n && AskedBy(states, steps, k, n, t, i)
                    && forall l :: k <= l < n ==> !WritesRow(states[l], steps[l], key);
      StampCounts(c, states, steps, k, key);
      WritesGrow(states, steps, k, n, key);
    }
  }

  // ------------------------------------------------------------ a caller that nobody disturbs

  /** A caller that has asked as far as `f`, with every answer still standing, can go on by itself to the
      answer its program gives alone. */
  lemma GoesThrough(c: RetryConfig, s: State, t: Caller) returns (states: seq<State>, steps: seq<Step>)
    requires t in s.tasks && s.tasks[t].phase.Open? && Traced(s, s.tasks[t].program, s.tasks[t].phase)
    requires Fresh(s, s.tasks[t].phase) && Alone(s.tasks[t].program, s.tasks[t].phase.seen, s.rows).0.Ok?
    ensures |states| == |steps| + 1 && states[0] == s
    ensures forall i :: 0 <= i < |steps| ==>
              steps[i].t == t && Enabled(states[i], steps[i]) && states[i + 1] == Apply(c, states[i], steps[i])
    ensures var alone := Alone(s.tasks[t].program, s.tasks[t].phase.seen, s.rows);
            && t in states[|steps|].tasks
            && states[|steps|].tasks[t].phase == Ended(alone.0) && states[|steps|].rows == alone.1
    decreases s.tasks[t].program.depth - |s.tasks[t].phase.seen|
  {
    hide Bump, Assign, Lookup;
    var p, f := s.tasks[t].program, s.tasks[t].phase;
    if Decide(p, f.seen).Ask? {
      TracedRead(s, p, f);
      var s' := Apply(c, s, Read(t));
      TracedMove(s, s', p, s'.tasks[t].phase);
      var states', steps' := GoesThrough(c, s', t);
      states, steps := [s] + states', [Read(t)] + steps';
    } else {
      states, steps := [s, Apply(c, s, Commit(t))], [Commit(t)];
    }
  }

  lemma TracedMove(s: State, s': State, p: Program, f: Phase)
    requires f.Open? && Traced(s, p, f) && s'.rows == s.rows && s'.stamps == s.stamps
    ensures Traced(s', p, f)
  {
    hide Decide;
  }

  /** Main result: a caller that is not disturbed succeeds. From every state a resting caller whose program
      alone would answer Ok can go on, by its own steps, to that answer and those rows. */
  lemma UndisturbedSucceeds(c: RetryConfig, s: State, t: Caller) returns (states: seq<State>, steps: seq<Step>)
    requires t in s.tasks && s.tasks[t].phase.Resting? && Alone(s.tasks[t].program, [], s.rows).0.Ok?
    ensures |states| == |steps| + 1 && states[0] == s
    ensures forall i :: 0 <= i < |steps| ==>
              steps[i].t == t && Enabled(states[i], steps[i]) && states[i + 1] == Apply(c, states[i], steps[i])
    ensures var alone := Alone(s.tasks[t].program, [], s.rows);
            && t in states[|steps|].tasks
            && states[|steps|].tasks[t].phase == Ended(alone.0) && states[|steps|].rows == alone.1
  {
    hide Bump, Assign, Lookup, Stamp, Decide, Alone;
    var s' := Apply(c, s, Start(t));
    var states', steps' := GoesThrough(c, s', t);
    states, steps := [s] + states', [Start(t)] + steps';
  }
}
