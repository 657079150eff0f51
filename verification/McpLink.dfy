/** One MCP server connection (crates/komo-runtime/src/mcp.rs): the link under its async lock, the
    `closed` and `retrying` flags beside it, and every task that may run on it, interleaved at each
    point where the code awaits the lock, sleeps, connects, or touches a flag. */
module McpLink {
  import opened Text

  type Tokens = Option<string>

  datatype Link =
    | Connecting
    | Connected(session: nat)
    | NeedsAuth(tokens: Tokens)
    | Failed(error: string)
    | Closed
    | Disconnected

  /** What one attempt to connect comes back with. */
  datatype Outcome = Up | LoginNeeded(why: string) | Down(reason: string)

  /** Who is connecting: the first background connect, the retry loop, a person's reconnect, a tool
      call, or the check for changed credentials. */
  datatype Caller = Background | Retry | Manual | Call | SignedIn

  datatype Pc =
    | BgLock                                                   // background connect, before the lock
    | Conn(caller: Caller, tokens: Tokens)                     // connecting, lock held
    | ConnEnd(caller: Caller, tokens: Tokens, outcome: Outcome)  // answered, `closed` not yet read
    | ConnSet(caller: Caller, tokens: Tokens, outcome: Outcome)  // `closed` was not set when read
    | RetrySwap                                                // about to swap `retrying`
    | RetryHead                                                // loop head, about to read `closed`
    | RetryLook                                                // waiting to look at the link
    | RetrySleep
    | RetryLock                                                // slept, waiting for the lock
    | RetryClear                                               // about to clear `retrying`
    | RetryAsk                                                 // cleared, about to read `closed`
    | RetryFinal                                               // waiting for the last look at the link
    | ManualLock
    | ManualSpawn(failed: bool)                                // lock released, retry not yet spawned
    | CallStart
    | CallLock
    | CallGot(session: nat)                                    // the call has a session
    | LostAuthLock(lost: nat)
    | DisconnectLock
    | DisconnectSet                                            // lock held, `closed` was not set
    | DisconnectSettle
    | CloseLock                                                // the task that `close` spawned
    | SignedInTry
    | Done

  /** `looper`, `owed`, `closeDone` and `late` only record: the task inside the retry loop; that the
      link failed as the outcome of the first connect or of a reconnect and has been nothing else
      since; that a close task has had the lock; and the calls that started after `close`. */
  datatype Core = Core(
    oauth: bool, link: Link, closed: bool, retrying: bool, settled: bool, lock: Option<nat>,
    stored: Tokens, dead: set<nat>, sessions: nat,
    looper: Option<nat>, owed: bool, closeDone: bool)

  datatype State = State(core: Core, tasks: seq<Pc>, late: set<nat>)

  datatype Action =
    | Reconnect
    | CallTool
    | Disconnect
    | Close
    | CheckSignedIn
    | Store(tokens: Tokens)                                    // the credentials file changes
    | Die(session: nat)                                        // a session's transport closes
    | Step(task: nat, outcome: Outcome, refused: bool)

  function Init(oauth: bool, stored: Tokens): State {
    State(Core(oauth, Connecting, false, false, false, None, stored, {}, 0, None, false, false), [BgLock], {})
  }

  predicate Holds(pc: Pc) { pc.Conn? || pc.ConnEnd? || pc.ConnSet? || pc.DisconnectSet? }

  predicate Connects(pc: Pc) { pc.Conn? || pc.ConnEnd? || pc.ConnSet? }

  predicate Waits(pc: Pc) {
    pc.BgLock? || pc.RetryLook? || pc.RetryLock? || pc.RetryFinal? || pc.ManualLock? || pc.CallLock?
    || pc.LostAuthLock? || pc.DisconnectLock? || pc.CloseLock?
  }

  /** Inside `retry_until_settled`, up to clearing the flag. */
  predicate InLoop(pc: Pc) {
    pc.RetryHead? || pc.RetryLook? || pc.RetrySleep? || pc.RetryLock? || pc.RetryClear?
    || (Connects(pc) && pc.caller == Retry)
  }

  /** In `retry_while_failed` before its final re-check, or about to enter it. */
  predicate Carries(pc: Pc) {
    InLoop(pc) || pc.RetrySwap? || pc.RetryAsk? || pc.RetryFinal? || pc == ManualSpawn(true)
  }

  predicate Enabled(s: State, a: Action) {
    match a
    case Step(t, _, _) => t < |s.tasks| && !s.tasks[t].Done? && (Waits(s.tasks[t]) ==> s.core.lock.None?)
    case Die(session) => session < s.core.sessions
    case _ => true
  }

  // ------------------------------------------------------------ steps

  /** Where a step leaves the connection and its own task, and whether it spawns a retry. */
  datatype Moved = Moved(core: Core, pc: Pc, spawns: bool)

  function To(c: Core, pc: Pc): Moved { Moved(c, pc, false) }

  function SetLink(c: Core, link: Link, owes: bool): Core {
    c.(link := link, owed := link.Failed? && (owes || c.owed))
  }

  /** Takes the lock and starts to connect; the credentials are read first. */
  function Begin(c: Core, t: nat, caller: Caller): Moved {
    To(c.(lock := Some(t)), Conn(caller, c.stored))
  }

  /** What the caller does with the link it finds or has just written, releasing the lock. */
  function Finish(c: Core, caller: Caller): Moved {
    To(c.(lock := None),
       match caller
       case Background => RetrySwap
       case Retry => RetryHead
       case Manual => ManualSpawn(c.link.Failed?)
       case Call => if c.link.Connected? then CallGot(c.link.session) else Done
       case SignedIn => Done)
  }

  function LinkOf(c: Core, tokens: Tokens, o: Outcome): Link {
    match o
    case Up => Connected(c.sessions)
    case LoginNeeded(why) => if c.oauth then NeedsAuth(tokens) else Failed(why)
    case Down(reason) => Failed(reason)
  }

  /** `connect_into`, after the lock: connect, report settled, read `closed`, write the link. */
  function MoveConnect(c: Core, t: nat, pc: Pc, o: Outcome): Moved
    requires Connects(pc)
  {
    match pc
    case Conn(caller, tokens) => To(c.(settled := true), ConnEnd(caller, tokens, o))
    case ConnEnd(caller, tokens, outcome) =>
      if c.closed then Finish(SetLink(c, Closed, false), caller) else To(c, ConnSet(caller, tokens, outcome))
    case ConnSet(caller, tokens, outcome) =>
      var r := SetLink(c, LinkOf(c, tokens, outcome), caller == Background || caller == Manual);
      Finish(r.(sessions := if outcome.Up? then c.sessions + 1 else c.sessions), caller)
  }

  predicate Retries(pc: Pc) {
    pc.RetrySwap? || pc.RetryHead? || pc.RetryLook? || pc.RetrySleep? || pc.RetryLock?
    || pc.RetryClear? || pc.RetryAsk? || pc.RetryFinal?
  }

  /** `retry_while_failed` with `retry_until_settled` inside it. */
  function MoveRetry(c: Core, t: nat, pc: Pc): Moved
    requires Retries(pc)
  {
    match pc
    case RetrySwap => if c.retrying then To(c, Done) else To(c.(retrying := true, looper := Some(t)), RetryHead)
    case RetryHead => To(c, if c.closed then RetryClear else RetryLook)
    case RetryLook => To(c, if c.link.Failed? then RetrySleep else RetryClear)
    case RetrySleep => To(c, RetryLock)
    case RetryLock => if c.closed || !c.link.Failed? then To(c, RetryClear) else Begin(c, t, Retry)
    case RetryClear => To(c.(retrying := false, looper := None), RetryAsk)
    case RetryAsk => To(c, if c.closed then Done else RetryFinal)
    case RetryFinal => To(c, if c.link.Failed? then RetrySwap else Done)
  }

  function MoveOther(c: Core, t: nat, pc: Pc, refused: bool): Moved
    requires !Connects(pc) && !Retries(pc)
  {
    match pc
    case BgLock => if c.link.Connecting? then Begin(c, t, Background) else To(c, RetrySwap)
    case ManualLock => if c.closed then Finish(c, Manual) else Begin(c, t, Manual)
    case ManualSpawn(failed) => Moved(c, Done, failed)
    case CallStart => To(c, if c.closed then Done else CallLock)
    case CallLock =>
      if c.closed then To(c, Done) else if Reconnects(c) then Begin(c, t, Call) else Finish(c, Call)
    case CallGot(session) => To(c, if refused && c.oauth then LostAuthLock(session) else Done)
    case LostAuthLock(lost) =>
      To(if c.link == Connected(lost) then SetLink(c, NeedsAuth(c.stored), false) else c, Done)
    case DisconnectLock => if c.closed then To(c, DisconnectSettle) else To(c.(lock := Some(t)), DisconnectSet)
    case DisconnectSet => To(SetLink(c, Disconnected, false).(lock := None), DisconnectSettle)
    case DisconnectSettle => To(c.(settled := true), Done)
    case CloseLock => To(SetLink(c, Closed, false).(closeDone := true), Done)
    case SignedInTry =>
      if c.lock.None? && c.link.NeedsAuth? && c.link.tokens != c.stored then Begin(c, t, SignedIn) else To(c, Done)
    case Done => To(c, Done)
  }

  function Move(c: Core, t: nat, pc: Pc, o: Outcome, refused: bool): Moved {
    if Connects(pc) then MoveConnect(c, t, pc, o)
    else if Retries(pc) then MoveRetry(c, t, pc)
    else MoveOther(c, t, pc, refused)
  }

  /** A call connects on the spot when the link is new, failed, broken, or waits for a login that has
      since happened. */
  predicate Reconnects(c: Core) {
    match c.link
    case Connecting => true
    case Failed(_) => true
    case Connected(session) => session in c.dead
    case NeedsAuth(tokens) => tokens != c.stored
    case Closed => false
    case Disconnected => false
  }

  function Spawn(s: State, pc: Pc): State { s.(tasks := s.tasks + [pc]) }

  function After(s: State, t: nat, m: Moved): State
    requires t < |s.tasks|
  {
    State(m.core, s.tasks[t := m.pc] + (if m.spawns then [RetrySwap] else []), s.late)
  }

  function Apply(s: State, a: Action): State
    requires Enabled(s, a)
  {
    match a
    case Reconnect => Spawn(s, ManualLock)
    case CallTool => Spawn(s, CallStart).(late := if s.core.closed then s.late + {|s.tasks|} else s.late)
    case Disconnect => Spawn(s, DisconnectLock)
    case Close => Spawn(s.(core := s.core.(closed := true)), CloseLock)
    case CheckSignedIn => Spawn(s, SignedInTry)
    case Store(tokens) => s.(core := s.core.(stored := tokens))
    case Die(session) => s.(core := s.core.(dead := s.core.dead + {session}))
    case Step(t, o, refused) => After(s, t, Move(s.core, t, s.tasks[t], o, refused))
  }

  function Run(s: State, actions: seq<Action>): State
    requires Possible(s, actions)
    decreases |actions|
  {
    if actions == [] then s else Run(Apply(s, actions[0]), actions[1..])
  }

  predicate Possible(s: State, actions: seq<Action>)
    decreases |actions|
  {
    actions != [] ==> Enabled(s, actions[0]) && Possible(Apply(s, actions[0]), actions[1..])
  }

  // ------------------------------------------------------------ the invariant

  /** The link a caller may be connecting over: nobody else can change it meanwhile. */
  predicate Allowed(caller: Caller, link: Link) {
    match caller
    case Background => link.Connecting?
    case Retry => link.Failed?
    case Manual => !link.Closed?
    case Call => link.Connecting? || link.Failed? || link.Connected? || link.NeedsAuth?
    case SignedIn => link.NeedsAuth?
  }

  /** What a task at `pc` may rely on while it stands there. */
  predicate At(c: Core, t: nat, pc: Pc) {
    && (Holds(pc) <==> c.lock == Some(t))
    && (InLoop(pc) <==> c.looper == Some(t))
    && (Connects(pc) ==> Allowed(pc.caller, c.link))
    && (pc.ConnEnd? || pc.ConnSet? ==> c.settled)
    && (pc.DisconnectSet? ==> !c.link.Closed?)
    && (pc.CloseLock? ==> c.closed)
  }

  predicate CoreOk(c: Core) {
    && (c.retrying <==> c.looper.Some?)
    && (c.owed ==> c.link.Failed?)
    && (c.link.Closed? ==> c.closed)
    && (c.closeDone ==> c.link.Closed?)
    && (c.link.Connected? || c.link.NeedsAuth? || c.link.Failed? ==> c.settled)
  }

  predicate AllAt(s: State) {
    && (s.core.lock.Some? ==> s.core.lock.value < |s.tasks|)
    && (s.core.looper.Some? ==> s.core.looper.value < |s.tasks|)
    && (forall t | 0 <= t < |s.tasks| :: At(s.core, t, s.tasks[t]))
  }

  predicate LateOk(s: State) {
    && (s.late != {} ==> s.core.closed)
    && (forall t | t in s.late :: t < |s.tasks| && (s.tasks[t].CallStart? || s.tasks[t].Done?))
  }

  ghost predicate OwedOk(s: State) {
    s.core.owed && !s.core.closed ==> exists t :: 0 <= t < |s.tasks| && Carries(s.tasks[t])
  }

  ghost predicate Inv(s: State) {
    CoreOk(s.core) && AllAt(s) && LateOk(s) && OwedOk(s)
  }

  lemma InvInit(oauth: bool, stored: Tokens)
    ensures Inv(Init(oauth, stored))
  {
  }

  // ------------------------------------------------------------ one step, seen from its own task

  /** A step that respects the lock and the loop, and never leaves the retry procedure without a
      reason while a failure is owed a retry. */
  predicate GoodMove(c: Core, t: nat, pc: Pc, m: Moved) {
    var d := m.core;
    && CoreOk(d) && At(d, t, m.pc) && !m.pc.CloseLock?
    && d.closed == c.closed && (c.settled ==> d.settled)
    && (d.lock == c.lock || ((c.lock.None? || c.lock == Some(t)) && (d.lock.None? || d.lock == Some(t))))
    && (d.looper == c.looper || ((c.looper.None? || c.looper == Some(t)) && (d.looper.None? || d.looper == Some(t))))
    && (d.link != c.link ==> c.lock.None? || c.lock == Some(t))
    && (c.link.Closed? ==> d.link.Closed?)
    && (c.link.Disconnected? && !d.link.Disconnected? ==>
          pc.CloseLock? || (Connects(pc) && pc.caller == Manual))
    && (pc.CloseLock? ==> d.closeDone) && (c.closeDone ==> d.closeDone)
    && ((pc.CallStart? && c.closed) || pc.Done? ==> m.pc.Done?)
    && (d.owed && !c.owed ==> Carries(m.pc))
    && (c.owed && d.owed && !c.closed && Carries(pc) ==>
          Carries(m.pc) || m.spawns || (c.retrying && !InLoop(pc)))
  }

  lemma ConnectMove(c: Core, t: nat, pc: Pc, o: Outcome)
    requires CoreOk(c) && At(c, t, pc) && Connects(pc)
    ensures GoodMove(c, t, pc, MoveConnect(c, t, pc, o)) && !MoveConnect(c, t, pc, o).spawns
  {
  }

  lemma RetryMove(c: Core, t: nat, pc: Pc)
    requires CoreOk(c) && At(c, t, pc) && Retries(pc) && (Waits(pc) ==> c.lock.None?)
    ensures GoodMove(c, t, pc, MoveRetry(c, t, pc)) && !MoveRetry(c, t, pc).spawns
  {
  }

  predicate Calls(pc: Pc) { pc.CallStart? || pc.CallLock? || pc.CallGot? || pc.LostAuthLock? || pc.SignedInTry? }

  predicate Ends(pc: Pc) { pc.DisconnectLock? || pc.DisconnectSet? || pc.DisconnectSettle? || pc.CloseLock? }

  lemma CallMove(c: Core, t: nat, pc: Pc, refused: bool)
    requires CoreOk(c) && At(c, t, pc) && Calls(pc) && (Waits(pc) ==> c.lock.None?)
    ensures GoodMove(c, t, pc, MoveOther(c, t, pc, refused))
  {
  }

  lemma EndMove(c: Core, t: nat, pc: Pc, refused: bool)
    requires CoreOk(c) && At(c, t, pc) && Ends(pc) && (Waits(pc) ==> c.lock.None?)
    ensures GoodMove(c, t, pc, MoveOther(c, t, pc, refused))
  {
  }

  lemma StartMove(c: Core, t: nat, pc: Pc, refused: bool)
    requires CoreOk(c) && At(c, t, pc) && (pc.BgLock? || pc.ManualLock? || pc.ManualSpawn? || pc.Done?)
    requires Waits(pc) ==> c.lock.None?
    ensures GoodMove(c, t, pc, MoveOther(c, t, pc, refused))
  {
  }

  lemma OtherMove(c: Core, t: nat, pc: Pc, refused: bool)
    requires CoreOk(c) && At(c, t, pc) && !Connects(pc) && !Retries(pc) && (Waits(pc) ==> c.lock.None?)
    ensures GoodMove(c, t, pc, MoveOther(c, t, pc, refused))
  {
    hide GoodMove, CoreOk, At, MoveOther;
    if Calls(pc) {
      CallMove(c, t, pc, refused);
    } else if Ends(pc) {
      EndMove(c, t, pc, refused);
    } else {
      StartMove(c, t, pc, refused);
    }
  }

  lemma AnyMove(c: Core, t: nat, pc: Pc, o: Outcome, refused: bool)
    requires CoreOk(c) && At(c, t, pc) && (Waits(pc) ==> c.lock.None?)
    ensures GoodMove(c, t, pc, Move(c, t, pc, o, refused))
  {
    hide GoodMove, CoreOk, At, MoveConnect, MoveRetry, MoveOther;
    if Connects(pc) {
      ConnectMove(c, t, pc, o);
    } else if Retries(pc) {
      RetryMove(c, t, pc);
    } else {
      OtherMove(c, t, pc, refused);
    }
  }

  // ------------------------------------------------------------ one step, seen from the others

  /** Whoever else stands anywhere is not disturbed. */
  lemma Undisturbed(c: Core, t: nat, pc: Pc, m: Moved, u: nat, other: Pc)
    requires CoreOk(c) && GoodMove(c, t, pc, m) && u != t && At(c, u, other)
    ensures At(m.core, u, other)
  {
    hide Allowed;
  }

  lemma Newcomer(c: Core, u: nat)
    requires c.lock != Some(u) && c.looper != Some(u)
    ensures At(c, u, RetrySwap)
  {
  }

  lemma StepAllAt(s: State, t: nat, m: Moved)
    requires CoreOk(s.core) && AllAt(s) && t < |s.tasks| && GoodMove(s.core, t, s.tasks[t], m)
    ensures AllAt(After(s, t, m))
  {
    hide At, CoreOk;
    var r := After(s, t, m);
    forall u | 0 <= u < |r.tasks|
      ensures At(r.core, u, r.tasks[u])
    {
      if u == t {
      } else if u < |s.tasks| {
        Undisturbed(s.core, t, s.tasks[t], m, u, s.tasks[u]);
      } else {
        Newcomer(m.core, u);
      }
    }
  }

  lemma StepLateOk(s: State, t: nat, m: Moved)
    requires LateOk(s) && t < |s.tasks| && GoodMove(s.core, t, s.tasks[t], m)
    ensures LateOk(After(s, t, m))
  {
    hide At, CoreOk;
  }

  /** The heart of it: a task may leave the retry procedure only by handing over. */
  lemma StepOwedOk(s: State, t: nat, m: Moved)
    requires CoreOk(s.core) && AllAt(s) && OwedOk(s) && t < |s.tasks| && GoodMove(s.core, t, s.tasks[t], m)
    ensures OwedOk(After(s, t, m))
  {
    hide Allowed;
    var c, r := s.core, After(s, t, m);
    if r.core.owed && !r.core.closed {
      if !c.owed {
        assert Carries(r.tasks[t]);
      } else {
        var w :| 0 <= w < |s.tasks| && Carries(s.tasks[w]);
        if w != t {
          assert Carries(r.tasks[w]);
        } else if Carries(m.pc) {
          assert Carries(r.tasks[t]);
        } else if m.spawns {
          assert Carries(r.tasks[|s.tasks|]);
        } else {
          var l := c.looper.value;
          assert At(c, l, s.tasks[l]) && At(c, t, s.tasks[t]);
          assert Carries(r.tasks[l]);
        }
      }
    }
  }

  lemma TaskStepKeeps(s: State, t: nat, o: Outcome, refused: bool)
    requires Inv(s) && Enabled(s, Step(t, o, refused))
    ensures Inv(Apply(s, Step(t, o, refused)))
    ensures GoodMove(s.core, t, s.tasks[t], Move(s.core, t, s.tasks[t], o, refused))
  {
    hide At, LateOk, OwedOk, Move;
    var m := Move(s.core, t, s.tasks[t], o, refused);
    AnyMove(s.core, t, s.tasks[t], o, refused);
    StepAllAt(s, t, m);
    StepLateOk(s, t, m);
    StepOwedOk(s, t, m);
  }

  lemma SpawnKeeps(s: State, pc: Pc)
    requires Inv(s) && !Holds(pc) && !InLoop(pc) && (pc.CloseLock? ==> s.core.closed)
    ensures Inv(Spawn(s, pc))
  {
    hide Allowed;
    var r := Spawn(s, pc);
    assert forall u | 0 <= u < |s.tasks| :: r.tasks[u] == s.tasks[u];
    if s.core.owed && !s.core.closed {
      var w :| 0 <= w < |s.tasks| && Carries(s.tasks[w]);
      assert Carries(r.tasks[w]);
    }
  }

  /** Storing credentials, losing a session, and setting `closed` disturb no task. */
  lemma CoreChangeKeeps(s: State, c: Core)
    requires Inv(s)
    requires c == s.core.(stored := c.stored, dead := c.dead, closed := c.closed) && (s.core.closed ==> c.closed)
    ensures Inv(s.(core := c))
  {
    hide Allowed, Holds, InLoop, Carries;
    var r := s.(core := c);
    assert forall u | 0 <= u < |s.tasks| :: At(s.core, u, s.tasks[u]) ==> At(c, u, s.tasks[u]);
  }

  lemma ApplyKeeps(s: State, a: Action)
    requires Inv(s) && Enabled(s, a)
    ensures Inv(Apply(s, a))
  {
    hide Inv, Move;
    match a
    case Reconnect => SpawnKeeps(s, ManualLock);
    case CallTool => CallKeeps(s);
    case Disconnect => SpawnKeeps(s, DisconnectLock);
    case Close =>
      CoreChangeKeeps(s, s.core.(closed := true));
      SpawnKeeps(s.(core := s.core.(closed := true)), CloseLock);
    case CheckSignedIn => SpawnKeeps(s, SignedInTry);
    case Store(tokens) => CoreChangeKeeps(s, s.core.(stored := tokens));
    case Die(session) => CoreChangeKeeps(s, s.core.(dead := s.core.dead + {session}));
    case Step(t, o, refused) => TaskStepKeeps(s, t, o, refused);
  }

  lemma CallKeeps(s: State)
    requires Inv(s)
    ensures Inv(Apply(s, CallTool))
  {
    hide At, Carries;
    SpawnKeeps(s, CallStart);
  }

  lemma {:induction false} RunKeeps(s: State, actions: seq<Action>)
    requires Inv(s) && Possible(s, actions)
    ensures Inv(Run(s, actions))
    decreases |actions|
  {
    hide Inv, Apply, Enabled;
    if actions != [] {
      ApplyKeeps(s, actions[0]);
      RunKeeps(Apply(s, actions[0]), actions[1..]);
    }
  }

  // ------------------------------------------------------------ over every run

  /** A state some run reaches. */
  ghost predicate Reachable(s: State) {
    exists oauth: bool, stored: Tokens, actions: seq<Action> ::
      Possible(Init(oauth, stored), actions) && s == Run(Init(oauth, stored), actions)
  }

  lemma ReachableInv(s: State)
    requires Reachable(s)
    ensures Inv(s)
  {
    var oauth: bool, stored: Tokens, actions: seq<Action> :|
      Possible(Init(oauth, stored), actions) && s == Run(Init(oauth, stored), actions);
    InvInit(oauth, stored);
    RunKeeps(Init(oauth, stored), actions);
  }

  /** No lost retry: in every reachable state, if the link failed as the outcome of the first connect
      or of a person's reconnect, and the connection is not closed, some task is still in the retry
      procedure before its final re-check or is about to enter it. */
  lemma NoLostRetry(s: State)
    requires Reachable(s) && s.core.owed && !s.core.closed
    ensures exists t :: 0 <= t < |s.tasks| && Carries(s.tasks[t])
  {
    ReachableInv(s);
  }

  /** At most one task is ever inside the retry loop, and at most one connects or holds the link. */
  lemma OneAtATime(s: State, t: nat, u: nat)
    requires Reachable(s) && t < |s.tasks| && u < |s.tasks|
    ensures InLoop(s.tasks[t]) && InLoop(s.tasks[u]) ==> t == u
    ensures Holds(s.tasks[t]) && Holds(s.tasks[u]) ==> t == u
    ensures InLoop(s.tasks[t]) ==> s.core.retrying
  {
    ReachableInv(s);
    assert At(s.core, t, s.tasks[t]) && At(s.core, u, s.tasks[u]);
  }

  /** `Closed` is absorbing, even against a connect in flight; a close task that has had the lock has
      left it so; and `Disconnected` is left only by a person's reconnect or by a close. */
  lemma LifeCycle(s: State, a: Action)
    requires Reachable(s) && Enabled(s, a)
    ensures s.core.closeDone ==> s.core.link.Closed?
    ensures s.core.link.Closed? ==> Apply(s, a).core.link.Closed?
    ensures s.core.link.Disconnected? && !Apply(s, a).core.link.Disconnected? ==>
              a.Step? && (s.tasks[a.task].CloseLock? || (Connects(s.tasks[a.task]) && s.tasks[a.task].caller == Manual))
  {
    ReachableInv(s);
    if a.Step? {
      TaskStepKeeps(s, a.task, a.outcome, a.refused);
      assert At(s.core, a.task, s.tasks[a.task]);
    }
  }

  /** A call that starts after `close` never obtains a session. */
  lemma LateCallsGetNothing(s: State, t: nat)
    requires Reachable(s) && t in s.late
    ensures t < |s.tasks| && !s.tasks[t].CallGot? && !Connects(s.tasks[t])
  {
    ReachableInv(s);
  }

  lemma OwedMove(c: Core, t: nat, pc: Pc, o: Outcome, refused: bool)
    requires CoreOk(c) && At(c, t, pc)
    ensures var d := Move(c, t, pc, o, refused).core;
            d.link.Failed? ==> (d.owed <==> c.owed || (pc.ConnSet? && pc.caller in {Background, Manual}))
  {
    if Connects(pc) {
      OwedConnect(c, t, pc, o);
    } else if Retries(pc) {
      hide MoveConnect, MoveOther;
    } else {
      hide MoveConnect, MoveRetry, Allowed;
    }
  }

  lemma OwedConnect(c: Core, t: nat, pc: Pc, o: Outcome)
    requires Connects(pc) && CoreOk(c)
    ensures var d := MoveConnect(c, t, pc, o).core;
            d.link.Failed? ==> (d.owed <==> c.owed || (pc.ConnSet? && pc.caller in {Background, Manual}))
  {
  }

  lemma OwedStep(s: State, a: Action)
    requires Inv(s) && Enabled(s, a)
    ensures var r := Apply(s, a);
            r.core.owed <==> r.core.link.Failed? && ((s.core.owed && s.core.link.Failed?) || FailureWritten(s, a))
  {
    hide Move, At;
    if a.Step? {
      OwedMove(s.core, a.task, s.tasks[a.task], a.outcome, a.refused);
      TaskStepKeeps(s, a.task, a.outcome, a.refused);
    }
  }

  /** This step writes the failure of the first connect or of a person's reconnect. */
  predicate FailureWritten(s: State, a: Action)
    requires Enabled(s, a)
  {
    && a.Step? && s.tasks[a.task].ConnSet? && s.tasks[a.task].caller in {Background, Manual}
    && Apply(s, a).core.link.Failed?
  }

  /** The link is failed now and after every one of these actions. */
  predicate FailedThroughout(s: State, actions: seq<Action>)
    requires Possible(s, actions)
    decreases |actions|
  {
    s.core.link.Failed? && (actions != [] ==> FailedThroughout(Apply(s, actions[0]), actions[1..]))
  }

  /** One of these actions writes such a failure, and the link is failed ever since. */
  predicate FailedSince(s: State, actions: seq<Action>)
    requires Possible(s, actions)
    decreases |actions|
  {
    actions != [] &&
    ((FailureWritten(s, actions[0]) && FailedThroughout(Apply(s, actions[0]), actions[1..]))
     || FailedSince(Apply(s, actions[0]), actions[1..]))
  }

  lemma {:induction false} OwedRun(s: State, actions: seq<Action>)
    requires Inv(s) && Possible(s, actions)
    ensures Run(s, actions).core.owed <==> (s.core.owed && FailedThroughout(s, actions)) || FailedSince(s, actions)
    decreases |actions|
  {
    hide Inv, Apply, Enabled, FailureWritten;
    OwedIsFailed(s);
    if actions != [] {
      var r := Apply(s, actions[0]);
      OwedStep(s, actions[0]);
      ApplyKeeps(s, actions[0]);
      OwedIsFailed(r);
      OwedRun(r, actions[1..]);
    }
  }

  lemma OwedIsFailed(s: State)
    requires Inv(s)
    ensures s.core.owed ==> s.core.link.Failed?
  {
  }

  /** Main result: what the obligation means, over every run. A retry is owed if and only if some earlier
      step wrote the failure of the first connect or of a person's reconnect, and the link has been
      failed in every state since. */
  lemma WhenARetryIsOwed(oauth: bool, stored: Tokens, actions: seq<Action>)
    requires Possible(Init(oauth, stored), actions)
    ensures Run(Init(oauth, stored), actions).core.owed <==> FailedSince(Init(oauth, stored), actions)
  {
    InvInit(oauth, stored);
    OwedRun(Init(oauth, stored), actions);
  }

  /** Main result: no such failure is forgotten. As long as the link stays failed and the connection open,
      a task is in the retry procedure before its final re-check, or about to enter it. */
  lemma NoFailureForgotten(oauth: bool, stored: Tokens, actions: seq<Action>)
    requires Possible(Init(oauth, stored), actions) && FailedSince(Init(oauth, stored), actions)
    requires !Run(Init(oauth, stored), actions).core.closed
    ensures var s := Run(Init(oauth, stored), actions); exists t :: 0 <= t < |s.tasks| && Carries(s.tasks[t])
  {
    WhenARetryIsOwed(oauth, stored, actions);
    NoLostRetry(Run(Init(oauth, stored), actions));
  }

  // ------------------------------------------------------------ what is written, and what a call gets

  /** Sessions that exist are below the next one's number; only a server with logins waits for one. */
  predicate SessionsOk(s: State) {
    && (s.core.link.Connected? ==> s.core.link.session < s.core.sessions)
    && (s.core.link.NeedsAuth? ==> s.core.oauth)
    && (forall x :: x in s.core.dead ==> x < s.core.sessions)
    && (forall t :: 0 <= t < |s.tasks| ==> Known(s.tasks[t], s.core.sessions, s.core.oauth))
  }

  predicate Known(pc: Pc, sessions: nat, oauth: bool) {
    (pc.CallGot? ==> pc.session < sessions) && (pc.LostAuthLock? ==> pc.lost < sessions && oauth)
  }

  lemma MoveSessions(c: Core, t: nat, pc: Pc, o: Outcome, refused: bool)
    requires c.link.Connected? ==> c.link.session < c.sessions
    requires c.link.NeedsAuth? ==> c.oauth
    requires Known(pc, c.sessions, c.oauth)
    ensures var m := Move(c, t, pc, o, refused);
            && (m.core.link.Connected? ==> m.core.link.session < m.core.sessions)
            && (m.core.link.NeedsAuth? ==> m.core.oauth)
            && Known(m.pc, m.core.sessions, m.core.oauth)
            && m.core.sessions >= c.sessions && m.core.oauth == c.oauth && m.core.dead == c.dead
  {
    if Connects(pc) {
      hide MoveRetry, MoveOther;
    } else if Retries(pc) {
      hide MoveConnect, MoveOther;
    } else {
      hide MoveConnect, MoveRetry;
    }
  }

  lemma SessionsStep(s: State, a: Action)
    requires SessionsOk(s) && Enabled(s, a)
    ensures SessionsOk(Apply(s, a)) && Apply(s, a).core.sessions >= s.core.sessions
  {
    hide Move;
    if a.Step? {
      assert Known(s.tasks[a.task], s.core.sessions, s.core.oauth);
      MoveSessions(s.core, a.task, s.tasks[a.task], a.outcome, a.refused);
    }
  }

  lemma {:induction false} SessionsRun(s: State, actions: seq<Action>)
    requires SessionsOk(s) && Possible(s, actions)
    ensures SessionsOk(Run(s, actions)) && Run(s, actions).core.sessions >= s.core.sessions
    decreases |actions|
  {
    hide SessionsOk, Apply, Enabled;
    if actions != [] {
      SessionsStep(s, actions[0]);
      SessionsRun(Apply(s, actions[0]), actions[1..]);
    }
  }

  lemma ReachableSessions(s: State)
    requires Reachable(s)
    ensures SessionsOk(s)
  {
    var oauth: bool, stored: Tokens, actions: seq<Action> :|
      Possible(Init(oauth, stored), actions) && s == Run(Init(oauth, stored), actions);
    SessionsRun(Init(oauth, stored), actions);
  }

  /** A session that the link, a call, or a lost transport has to do with. */
  predicate Seen(s: State, session: nat) {
    || s.core.link == Connected(session) || session in s.core.dead
    || exists t :: 0 <= t < |s.tasks| && (s.tasks[t] == CallGot(session) || s.tasks[t] == LostAuthLock(session))
  }

  /** Nothing but this task's own place changed among the tasks. */
  predicate OnlyTask(s: State, r: State, t: nat) {
    |r.tasks| == |s.tasks| && forall u :: 0 <= u < |s.tasks| && u != t ==> r.tasks[u] == s.tasks[u]
  }

  /** Main result: what a connect writes, in every reachable state. One that succeeded leaves the link at a
      session that nothing had to do with before, and that lives; one that was told to log in leaves it waiting
      for a login, with the credentials it had tried, exactly if the server has logins; any other leaves
      the failure. The lock is free again, and a call that had waited for it has that very session, or is over. */
  lemma ConnectWrites(s: State, t: nat, o: Outcome, refused: bool)
    requires Reachable(s) && t < |s.tasks| && s.tasks[t].ConnSet?
    ensures Enabled(s, Step(t, o, refused))
    ensures var pc, r := s.tasks[t], Apply(s, Step(t, o, refused));
            && r.core.lock.None? && OnlyTask(s, r, t)
            && (match pc.outcome
                case Up => r.core.link.Connected? && !Seen(s, r.core.link.session) && r.core.link.session !in r.core.dead
                case LoginNeeded(why) =>
                  if s.core.oauth then r.core.link.NeedsAuth? && r.core.link.tokens == pc.tokens
                  else r.core.link.Failed? && r.core.link.error == why
                case Down(reason) => r.core.link.Failed? && r.core.link.error == reason)
            && (pc.caller.Call? ==>
                  if r.core.link.Connected? then r.tasks[t] == CallGot(r.core.link.session) else r.tasks[t].Done?)
  {
    ReachableSessions(s);
    hide MoveRetry, MoveOther;
    forall u | 0 <= u < |s.tasks|
      ensures s.tasks[u] != CallGot(s.core.sessions) && s.tasks[u] != LostAuthLock(s.core.sessions)
    {
      assert Known(s.tasks[u], s.core.sessions, s.core.oauth);
    }
  }

  /** Nor did anything have to do with that session in any state before. */
  lemma NeverSeenBefore(earlier: State, actions: seq<Action>, t: nat, o: Outcome, refused: bool)
    requires Reachable(earlier) && Possible(earlier, actions)
    requires t < |Run(earlier, actions).tasks| && Run(earlier, actions).tasks[t].ConnSet?
    requires Run(earlier, actions).tasks[t].outcome.Up? && Enabled(Run(earlier, actions), Step(t, o, refused))
    ensures var r := Apply(Run(earlier, actions), Step(t, o, refused));
            r.core.link.Connected? && !Seen(earlier, r.core.link.session)
  {
    hide MoveRetry, MoveOther, Reachable;
    ReachableSessions(earlier);
    SessionsRun(earlier, actions);
    SeenIsKnown(earlier);
  }

  lemma SeenIsKnown(s: State)
    requires SessionsOk(s)
    ensures forall session: nat :: Seen(s, session) ==> session < s.core.sessions
  {
  }

  /** On the way there the link does not change, unless the connection was closed meanwhile: then what was
      connected is let go, and the link is closed. */
  lemma ConnectAnswers(s: State, t: nat, o: Outcome, refused: bool)
    requires Reachable(s) && t < |s.tasks| && (s.tasks[t].Conn? || s.tasks[t].ConnEnd?)
    ensures Enabled(s, Step(t, o, refused))
    ensures var pc, r := s.tasks[t], Apply(s, Step(t, o, refused));
            && r.core.settled && OnlyTask(s, r, t) && r.core.dead == s.core.dead && r.core.closed == s.core.closed
            && (pc.Conn? ==> r.core.link == s.core.link && r.core.lock == Some(t)
                             && r.tasks[t].ConnEnd? && r.tasks[t].caller == pc.caller && r.tasks[t].tokens == pc.tokens && r.tasks[t].outcome == o)
            && (pc.ConnEnd? ==>
                  if s.core.closed then r.core.link.Closed? && r.core.lock.None? && (pc.caller.Call? ==> r.tasks[t].Done?)
                  else r.core.link == s.core.link && r.core.lock == Some(t)
                       && r.tasks[t].ConnSet? && r.tasks[t].caller == pc.caller && r.tasks[t].tokens == pc.tokens && r.tasks[t].outcome == pc.outcome)
  {
    ReachableInv(s);
    assert At(s.core, t, s.tasks[t]);
    hide MoveRetry, MoveOther;
  }

  /** The link is one that a call may not use as it is, but may connect anew. */
  predicate Stale(link: Link, dead: set<nat>, stored: Tokens) {
    || link.Connecting? || link.Failed?
    || (link.Connected? && link.session in dead)
    || (link.NeedsAuth? && link.tokens != stored)
  }

  /** Main result: what a call finds. A live session is handed out as it is. A link that is new, failed, or dead,
      or that waits for a login which has happened since, is connected anew, with the credentials as they are
      now. A login that has not happened, a closed link, one a person has disconnected: the call gets nothing. */
  lemma CallFinds(s: State, t: nat, o: Outcome, refused: bool)
    requires Reachable(s) && t < |s.tasks| && s.tasks[t].CallLock? && s.core.lock.None?
    ensures Enabled(s, Step(t, o, refused))
    ensures var r := Apply(s, Step(t, o, refused));
            && OnlyTask(s, r, t) && r.core.link == s.core.link
            && (s.core.closed ==> r.tasks[t].Done? && r.core == s.core)
            && (!s.core.closed ==>
                  match s.core.link
                  case Connected(session) =>
                    if session in s.core.dead then IsConnecting(s, r, t) else r.tasks[t] == CallGot(session) && r.core == s.core
                  case Connecting => IsConnecting(s, r, t)
                  case Failed(_) => IsConnecting(s, r, t)
                  case NeedsAuth(tokens) =>
                    if tokens != s.core.stored then IsConnecting(s, r, t) else r.tasks[t].Done? && r.core == s.core
                  case Closed => r.tasks[t].Done? && r.core == s.core
                  case Disconnected => r.tasks[t].Done? && r.core == s.core)
  {
    hide MoveConnect, MoveRetry;
  }

  /** The call holds the lock and connects; nothing else has changed. */
  predicate IsConnecting(s: State, r: State, t: nat)
    requires t < |r.tasks|
  {
    r.tasks[t] == Conn(Call, s.core.stored) && r.core == s.core.(lock := Some(t))
  }

  /** Main result: a call over a stale link of an open connection gets a new session, if connecting succeeds. */
  lemma CallReconnects(s: State, t: nat) returns (r: State)
    requires Reachable(s) && t < |s.tasks| && s.tasks[t].CallLock? && s.core.lock.None? && !s.core.closed
    requires Stale(s.core.link, s.core.dead, s.core.stored)
    ensures Possible(s, [Go(t), Go(t), Go(t), Go(t)]) && r == Run(s, [Go(t), Go(t), Go(t), Go(t)])
    ensures t < |r.tasks| && r.tasks[t].CallGot? && r.core.link == Connected(r.tasks[t].session)
    ensures !Seen(s, r.tasks[t].session) && r.tasks[t].session !in r.core.dead && r.core.lock.None?
  {
    hide Apply, Enabled, Move, Reachable, Seen, Run, Possible;
    CallFinds(s, t, Up, false);
    var s1 := Apply(s, Go(t));
    ReachableNext(s, Go(t));
    ConnectAnswers(s1, t, Up, false);
    var s2 := Apply(s1, Go(t));
    ReachableNext(s1, Go(t));
    ConnectAnswers(s2, t, Up, false);
    var s3 := Apply(s2, Go(t));
    ReachableNext(s2, Go(t));
    ConnectWrites(s3, t, Up, false);
    r := Apply(s3, Go(t));
    SeenSame(s, s3, t, r.core.link.session);
    FourSteps(s, s1, s2, s3, Go(t));
  }

  lemma FourSteps(s: State, s1: State, s2: State, s3: State, a: Action)
    requires Enabled(s, a) && s1 == Apply(s, a) && Enabled(s1, a) && s2 == Apply(s1, a)
    requires Enabled(s2, a) && s3 == Apply(s2, a) && Enabled(s3, a)
    ensures Possible(s, [a, a, a, a]) && Run(s, [a, a, a, a]) == Apply(s3, a)
  {
    hide Apply, Enabled;
    OneStep(s3, a, []);
    OneStep(s2, a, [a]);
    OneStep(s1, a, [a, a]);
    OneStep(s, a, [a, a, a]);
    assert [a] + [] == [a] && [a] + [a] == [a, a] && [a] + [a, a] == [a, a, a] && [a] + [a, a, a] == [a, a, a, a];
  }

  lemma SeenSame(s: State, r: State, t: nat, session: nat)
    requires r.core.link == s.core.link && r.core.dead == s.core.dead && OnlyTask(s, r, t)
    requires t < |s.tasks| && !s.tasks[t].CallGot? && !s.tasks[t].LostAuthLock?
    ensures Seen(s, session) ==> Seen(r, session)
  {
    if s.core.link != Connected(session) && session !in s.core.dead && Seen(s, session) {
      var u :| 0 <= u < |s.tasks| && (s.tasks[u] == CallGot(session) || s.tasks[u] == LostAuthLock(session));
      assert r.tasks[u] == s.tasks[u];
    }
  }

  function Go(t: nat): Action { Step(t, Up, false) }

  lemma OneStep(s: State, a: Action, rest: seq<Action>)
    requires Enabled(s, a) && Possible(Apply(s, a), rest)
    ensures Possible(s, [a] + rest) && Run(s, [a] + rest) == Run(Apply(s, a), rest)
  {
    assert ([a] + rest)[1..] == rest;
  }

  lemma {:induction false} RunThen(s: State, actions: seq<Action>, a: Action)
    requires Possible(s, actions) && Enabled(Run(s, actions), a)
    ensures Possible(s, actions + [a]) && Run(s, actions + [a]) == Apply(Run(s, actions), a)
    decreases |actions|
  {
    hide Apply, Enabled;
    if actions == [] {
      assert [] + [a] == [a] && [a][1..] == [];
    } else {
      RunThen(Apply(s, actions[0]), actions[1..], a);
      assert (actions + [a])[1..] == actions[1..] + [a];
    }
  }

  lemma ReachableNext(s: State, a: Action)
    requires Reachable(s) && Enabled(s, a)
    ensures Reachable(Apply(s, a))
  {
    hide Apply, Enabled, Init;
    var oauth: bool, stored: Tokens, actions: seq<Action> :|
      Possible(Init(oauth, stored), actions) && s == Run(Init(oauth, stored), actions);
    RunThen(Init(oauth, stored), actions, a);
  }

  /** Who connects, and when: everyone with the lock, with the credentials as they are, and over the link it
      has found. */
  lemma WhoConnects(s: State, t: nat, o: Outcome, refused: bool)
    requires Reachable(s) && Enabled(s, Step(t, o, refused)) && !Connects(s.tasks[t])
    ensures var r := Apply(s, Step(t, o, refused));
            && (Connects(r.tasks[t]) <==>
                  match s.tasks[t]
                  case BgLock => s.core.link.Connecting?
                  case RetryLock => s.core.link.Failed? && !s.core.closed
                  case ManualLock => !s.core.closed
                  case CallLock => !s.core.closed && Stale(s.core.link, s.core.dead, s.core.stored)
                  case SignedInTry => s.core.lock.None? && s.core.link.NeedsAuth? && s.core.link.tokens != s.core.stored
                  case _ => false)
            && (Connects(r.tasks[t]) ==>
                  r.tasks[t].Conn? && r.tasks[t].tokens == s.core.stored && r.core.lock == Some(t) && r.core.link == s.core.link)
  {
    hide MoveConnect;
  }

  /** How a retry goes: whoever finds the flag free sets it and goes round; each round looks whether the connection is
      still open and its link still failed, sleeps, and only then asks for the lock; whoever leaves clears the
      flag first and then looks once more. So no retry connects without having slept before. */
  lemma RetryTurns(s: State, t: nat, o: Outcome, refused: bool)
    requires Reachable(s) && Enabled(s, Step(t, o, refused)) && !Connects(s.tasks[t])
    ensures var r := Apply(s, Step(t, o, refused));
            && (r.tasks[t].RetryLock? ==> s.tasks[t].RetrySleep?)
            && (Connects(r.tasks[t]) && r.tasks[t].caller.Retry? ==> s.tasks[t].RetryLock?)
            && (s.tasks[t].RetrySwap? ==>
                  if s.core.retrying then r.tasks[t].Done? && r.core == s.core else r.tasks[t].RetryHead? && r.core.retrying)
            && (s.tasks[t].RetryHead? ==> if s.core.closed then r.tasks[t].RetryClear? else r.tasks[t].RetryLook?)
            && (s.tasks[t].RetryLook? ==> if s.core.link.Failed? then r.tasks[t].RetrySleep? else r.tasks[t].RetryClear?)
            && (s.tasks[t].RetryClear? ==> !r.core.retrying && r.tasks[t].RetryAsk?)
            && (s.tasks[t].RetryAsk? ==> if s.core.closed then r.tasks[t].Done? else r.tasks[t].RetryFinal?)
            && (s.tasks[t].RetryFinal? ==> if s.core.link.Failed? then r.tasks[t].RetrySwap? else r.tasks[t].Done?)
  {
    hide MoveConnect, Reachable;
    if Retries(s.tasks[t]) {
      hide MoveOther;
    } else {
      hide MoveRetry, Reconnects;
    }
  }

  /** Who else writes the link, and what: a call whose session refused its credentials, if that session is
      still the link's; a person who disconnects; and a close. */
  lemma WhoElseWrites(s: State, t: nat, o: Outcome, refused: bool)
    requires Reachable(s) && Enabled(s, Step(t, o, refused)) && !Connects(s.tasks[t])
    ensures var link, now := s.core.link, Apply(s, Step(t, o, refused)).core.link;
            match s.tasks[t]
            case LostAuthLock(lost) => if link == Connected(lost) then now == NeedsAuth(s.core.stored) else now == link
            case DisconnectSet => now.Disconnected?
            case CloseLock => now.Closed?
            case _ => now == link
  {
    hide MoveConnect, Reachable;
    if Retries(s.tasks[t]) {
      hide MoveOther;
    } else {
      hide MoveRetry, Reconnects;
    }
  }

  /** Nothing but a step of a task changes the link, and each person's or caller's wish becomes a task. */
  lemma WishesBecomeTasks(s: State, a: Action)
    requires Enabled(s, a) && !a.Step?
    ensures var r := Apply(s, a);
            && r.core.link == s.core.link && r.core.lock == s.core.lock && r.tasks[..|s.tasks|] == s.tasks
            && (r.core.closed <==> s.core.closed || a.Close?)
            && r.late == (if a.CallTool? && s.core.closed then s.late + {|s.tasks|} else s.late)
            && (match a
                case Reconnect => r.tasks == s.tasks + [ManualLock]
                case CallTool => r.tasks == s.tasks + [CallStart]
                case Disconnect => r.tasks == s.tasks + [DisconnectLock]
                case Close => r.tasks == s.tasks + [CloseLock]
                case CheckSignedIn => r.tasks == s.tasks + [SignedInTry]
                case Store(tokens) => r.tasks == s.tasks && r.core == s.core.(stored := tokens)
                case Die(session) => r.tasks == s.tasks && r.core == s.core.(dead := s.core.dead + {session})
                case _ => true)
  {
  }

  /** The rest of what tasks do: a call asks for the link unless the connection is closed, and reports its session
      as refused exactly if the server refused it and has logins; a person's reconnect leaves a retry behind
      exactly if it failed; a disconnect of an open connection takes the lock. */
  lemma OtherTurns(s: State, t: nat, o: Outcome, refused: bool)
    requires Reachable(s) && Enabled(s, Step(t, o, refused)) && !Connects(s.tasks[t]) && !Retries(s.tasks[t])
    ensures var pc, r := s.tasks[t], Apply(s, Step(t, o, refused));
            && (pc.CallStart? ==> if s.core.closed then r.tasks[t].Done? else r.tasks[t].CallLock?)
            && (pc.CallGot? ==> r.core == s.core &&
                                if refused && s.core.oauth then r.tasks[t] == LostAuthLock(pc.session) else r.tasks[t].Done?)
            && (pc.ManualSpawn? ==> r.tasks[t].Done? && r.tasks[|s.tasks|..] == if pc.failed then [RetrySwap] else [])
            && (!pc.ManualSpawn? ==> OnlyTask(s, r, t))
            && (pc.BgLock? && !s.core.link.Connecting? ==> r.tasks[t].RetrySwap?)
            && (pc.DisconnectLock? ==> if s.core.closed then r.tasks[t].DisconnectSettle?
                                       else r.tasks[t].DisconnectSet? && r.core.lock == Some(t))
            && (pc.DisconnectSet? ==> r.tasks[t].DisconnectSettle? && r.core.lock.None?)
            && (pc.DisconnectSettle? ==> r.tasks[t].Done? && r.core.settled)
            && (pc.CloseLock? || pc.LostAuthLock? ==> r.tasks[t].Done?)
  {
    hide MoveConnect, MoveRetry, Reachable, Reconnects;
  }

  /** Main result: a person who disconnects an open connection finds it disconnected. */
  lemma DisconnectWorks(s: State, t: nat) returns (r: State)
    requires Reachable(s) && t < |s.tasks| && s.tasks[t].DisconnectLock? && s.core.lock.None? && !s.core.closed
    ensures Possible(s, [Go(t), Go(t), Go(t)]) && r == Run(s, [Go(t), Go(t), Go(t)])
    ensures r.core.link.Disconnected? && r.core.settled && r.core.lock.None? && OnlyTask(s, r, t)
  {
    hide Move, Reachable, Possible, Run;
    var s1 := Apply(s, Go(t));
    OtherTurns(s, t, Up, false);
    ReachableNext(s, Go(t));
    var s2 := Apply(s1, Go(t));
    OtherTurns(s1, t, Up, false);
    WhoElseWrites(s1, t, Up, false);
    ReachableNext(s1, Go(t));
    OtherTurns(s2, t, Up, false);
    WhoElseWrites(s2, t, Up, false);
    LockStays(s2, t);
    r := Apply(s2, Go(t));
    ThreeSteps(s, s1, s2, Go(t));
  }

  lemma LockStays(s: State, t: nat)
    requires t < |s.tasks| && s.tasks[t].DisconnectSettle?
    ensures Apply(s, Go(t)).core.lock == s.core.lock
  {
  }

  lemma ThreeSteps(s: State, s1: State, s2: State, a: Action)
    requires Enabled(s, a) && s1 == Apply(s, a) && Enabled(s1, a) && s2 == Apply(s1, a) && Enabled(s2, a)
    ensures Possible(s, [a, a, a]) && Run(s, [a, a, a]) == Apply(s2, a)
  {
    hide Apply, Enabled;
    OneStep(s2, a, []);
    OneStep(s1, a, [a]);
    OneStep(s, a, [a, a]);
    assert [a] + [] == [a] && [a] + [a] == [a, a] && [a] + [a, a] == [a, a, a];
  }

  /** Main result, over runs: a call that is started when the connection is closed never has a session and never
      connects, whatever happens afterwards. */
  lemma NoSessionAfterClose(s: State, actions: seq<Action>)
    requires Reachable(s) && s.core.closed && Possible(Apply(s, CallTool), actions)
    ensures var r := Run(Apply(s, CallTool), actions);
            |s.tasks| < |r.tasks| && !r.tasks[|s.tasks|].CallGot? && !Connects(r.tasks[|s.tasks|])
  {
    hide Move, Reachable;
    ReachableNext(s, CallTool);
    ReachableLater(Apply(s, CallTool), actions);
    LateStays(Apply(s, CallTool), actions, |s.tasks|);
    LateCallsGetNothing(Run(Apply(s, CallTool), actions), |s.tasks|);
  }

  lemma {:induction false} LateStays(s: State, actions: seq<Action>, t: nat)
    requires Possible(s, actions) && t in s.late
    ensures t in Run(s, actions).late
    decreases |actions|
  {
    hide Move, Enabled;
    if actions != [] {
      LateStays(Apply(s, actions[0]), actions[1..], t);
    }
  }

  lemma {:induction false} ReachableLater(s: State, actions: seq<Action>)
    requires Reachable(s) && Possible(s, actions)
    ensures Reachable(Run(s, actions))
    decreases |actions|
  {
    hide Reachable, Apply, Enabled;
    if actions != [] {
      ReachableNext(s, actions[0]);
      ReachableLater(Apply(s, actions[0]), actions[1..]);
    }
  }

  // ------------------------------------------------------------ the carried retry can always happen

  predicate Owing(s: State) { s.core.owed && !s.core.closed }

  predicate RetryConnecting(s: State) {
    exists t | 0 <= t < |s.tasks| :: s.tasks[t].Conn? && s.tasks[t].caller == Retry
  }

  /** How many steps a task of the retry procedure still has before it connects. */
  function Distance(pc: Pc): nat {
    if pc.RetryClear? then 8 else if pc.RetryAsk? then 7 else if pc.RetryFinal? then 6
    else if pc.ManualSpawn? then 6 else if pc.RetrySwap? then 5 else if pc.RetryHead? then 4
    else if pc.RetryLook? then 3 else if pc.RetrySleep? then 2 else 1
  }

  function Tick(t: nat): Action { Step(t, Down("refused"), false) }

  /** With the lock free, one step brings the carrying task closer, or someone takes over closer. */
  lemma Closer(s: State, t: nat) returns (u: nat)
    requires Inv(s) && Owing(s) && s.core.lock.None?
    requires t < |s.tasks| && Carries(s.tasks[t]) && (s.core.looper.Some? ==> s.core.looper == Some(t))
    ensures Enabled(s, Tick(t))
    ensures var r := Apply(s, Tick(t));
            && Inv(r)
            && (RetryConnecting(r) ||
                (Owing(r) && r.core.lock.None? && u < |r.tasks| && Carries(r.tasks[u])
                 && (r.core.looper.Some? ==> r.core.looper == Some(u))
                 && Distance(r.tasks[u]) < Distance(s.tasks[t])))
  {
    assert At(s.core, t, s.tasks[t]);
    TaskStepKeeps(s, t, Down("refused"), false);
    var r := Apply(s, Tick(t));
    u := if s.tasks[t].ManualSpawn? then |s.tasks| else t;
    if r.tasks[t].Conn? { assert RetryConnecting(r); }
  }

  lemma {:induction false} Drive(s: State, t: nat) returns (actions: seq<Action>)
    requires Inv(s) && Owing(s) && s.core.lock.None?
    requires t < |s.tasks| && Carries(s.tasks[t]) && (s.core.looper.Some? ==> s.core.looper == Some(t))
    ensures Possible(s, actions) && RetryConnecting(Run(s, actions))
    ensures forall a | a in actions :: a.Step?
    decreases Distance(s.tasks[t])
  {
    hide Inv, Apply, Enabled, Carries, Distance;
    var u := Closer(s, t);
    var r := Apply(s, Tick(t));
    if RetryConnecting(r) {
      actions := [Tick(t)];
      assert Run(r, []) == r;
      assert actions[1..] == [];
    } else {
      var more := Drive(r, u);
      actions := [Tick(t)] + more;
      assert actions[1..] == more;
    }
  }

  /** The task that carries a retry once the lock is free: the one in the loop, if there is one. */
  lemma Carrier(s: State) returns (t: nat)
    requires Inv(s) && Owing(s)
    ensures t < |s.tasks| && Carries(s.tasks[t]) && (s.core.looper.Some? ==> s.core.looper == Some(t))
  {
    if s.core.looper.Some? {
      t := s.core.looper.value;
      assert At(s.core, t, s.tasks[t]);
    } else {
      t :| 0 <= t < |s.tasks| && Carries(s.tasks[t]);
    }
  }

  function HoldSteps(pc: Pc): nat {
    if pc.Conn? then 3 else if pc.ConnEnd? then 2 else 1
  }

  /** Whoever holds the lock lets go of it in a few of its own steps. */
  lemma HolderMoves(s: State)
    requires Inv(s) && s.core.lock.Some?
    ensures var t := s.core.lock.value;
            && Enabled(s, Tick(t))
            && var r := Apply(s, Tick(t));
               && Inv(r) && (s.core.closed == r.core.closed)
               && (r.core.lock.None? || (r.core.lock == s.core.lock && HoldSteps(r.tasks[t]) < HoldSteps(s.tasks[t])))
  {
    var t := s.core.lock.value;
    assert At(s.core, t, s.tasks[t]);
    TaskStepKeeps(s, t, Down("refused"), false);
  }

  lemma {:induction false} RetryFrom(s: State) returns (actions: seq<Action>)
    requires Inv(s) && !s.core.closed
    ensures Possible(s, actions) && (forall a | a in actions :: a.Step?)
    ensures Owing(Run(s, actions)) ==> RetryConnecting(Run(s, actions))
    decreases if s.core.lock.Some? then HoldSteps(s.tasks[s.core.lock.value]) else 0
  {
    hide Inv, Apply, Enabled, Carries, HoldSteps;
    if !Owing(s) {
      actions := [];
    } else if s.core.lock.None? {
      var t := Carrier(s);
      actions := Drive(s, t);
    } else {
      LockHeld(s);
      var t := s.core.lock.value;
      HolderMoves(s);
      var more := RetryFrom(Apply(s, Tick(t)));
      actions := [Tick(t)] + more;
      assert actions[1..] == more;
    }
  }

  lemma LockHeld(s: State)
    requires Inv(s) && s.core.lock.Some?
    ensures s.core.lock.value < |s.tasks| && HoldSteps(s.tasks[s.core.lock.value]) > 0
  {
  }

  /** The obligation is not only carried, it can be met: from every reachable state that owes a retry
      the tasks already there can, with no help from outside, go on until a retry connects, or until
      the link is no longer failed. */
  lemma RetryCanHappen(s: State) returns (actions: seq<Action>)
    requires Reachable(s) && !s.core.closed
    ensures Possible(s, actions) && (forall a | a in actions :: a.Step?)
    ensures Owing(Run(s, actions)) ==> RetryConnecting(Run(s, actions))
  {
    ReachableInv(s);
    actions := RetryFrom(s);
  }

  /** A retry can be owed: the first connect fails. */
  lemma FirstConnectFails(oauth: bool, stored: Tokens, reason: string) returns (s: State)
    ensures Reachable(s) && Owing(s) && s.core.link == Failed(reason) && s.tasks == [RetrySwap]
  {
    var a := Step(0, Down(reason), false);
    var s0 := Init(oauth, stored);
    InitIsReachable(oauth, stored);
    var s1 := Begins(s0, a);
    hide Move, Reachable, Init;
    ReachableNext(s0, a);
    ConnectAnswers(s1, 0, Down(reason), false);
    var s2 := Apply(s1, a);
    ReachableNext(s1, a);
    ConnectAnswers(s2, 0, Down(reason), false);
    var s3 := Apply(s2, a);
    ReachableNext(s2, a);
    ConnectWrites(s3, 0, Down(reason), false);
    ReachableNext(s3, a);
    s := Apply(s3, a);
    FailureOwes(s3, a);
  }

  lemma Begins(s: State, a: Action) returns (r: State)
    requires s.tasks == [BgLock] && s.core.link.Connecting? && s.core.lock.None? && a.Step? && a.task == 0
    ensures Enabled(s, a) && r == Apply(s, a)
    ensures r.tasks == [Conn(Background, s.core.stored)] && r.core.closed == s.core.closed
  {
    r := Apply(s, a);
  }

  lemma FailureOwes(s: State, a: Action)
    requires a.Step? && a.task == 0 && |s.tasks| == 1 && !s.core.closed
    requires s.tasks[0].ConnSet? && s.tasks[0].caller.Background? && s.tasks[0].outcome.Down?
    ensures Enabled(s, a) && Owing(Apply(s, a)) && Apply(s, a).tasks == [RetrySwap]
  {
    hide MoveRetry, MoveOther;
  }

  lemma InitIsReachable(oauth: bool, stored: Tokens)
    ensures Reachable(Init(oauth, stored))
  {
    hide Init;
    assert Possible(Init(oauth, stored), []) && Init(oauth, stored) == Run(Init(oauth, stored), []);
  }
}
