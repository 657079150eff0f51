/** One RPC connection (crates/komo-channel/src/rpc.rs) as a state machine over the atomic steps of its
    callers, its writer, its reader, and whoever closes it. A caller may be dropped between any two of
    its steps, and the writer's stream may fail after any byte. */
module Rpc {
  import opened RpcWire
  import opened Text

  const MAX_PENDING: nat := 64
  /** 64 frames in the channel and one in the writer's hands. */
  const QUEUE: nat := 65

  /** A call that has its number: not yet in the table, in the table, with its frame queued, over. */
  datatype Pc = Numbered | Waiting | Sent | Over

  datatype Answer = Replied(value: string) | Failed(message: string) | Disconnected

  /** `cleared` callers have seen the connection open and have no number yet. `accepted` records every
      frame put on the queue and `written` those the writer put on the stream whole; no step reads them. */
  datatype State = State(
    closed: bool, reading: bool, cleared: nat, next: nat, calls: map<nat, Pc>, pending: set<nat>,
    answers: map<nat, Answer>, queue: seq<Bytes>, down: bool, wire: Bytes, accepted: seq<Bytes>, written: seq<Bytes>)

  const START := State(false, true, 0, 1, map[], {}, map[], [], false, [], [], [])

  datatype Step =
    | CheckOpen
    | TakeNumber
    | Register(id: nat)
    | Enqueue(id: nat, frame: Bytes)
    | EnqueueReply(frame: Bytes)
    | End(id: nat)
    | WriteWhole
    | WriteFails(k: nat)
    | Receive(id: nat, answer: Answer)
    | StopReading
    | SetClosed
    | Drain

  predicate Live(s: State, id: nat) {
    id in s.calls && s.calls[id] != Over
  }

  predicate Enabled(s: State, a: Step) {
    match a
    case CheckOpen => !s.closed
    case TakeNumber => s.cleared > 0
    case Register(id) => id in s.calls && s.calls[id] == Numbered
    case Enqueue(id, frame) => id in s.calls && s.calls[id] == Waiting && CanQueue(s, frame)
    case EnqueueReply(frame) => CanQueue(s, frame)
    case End(id) => Live(s, id)
    case WriteWhole => !s.down && s.queue != []
    case WriteFails(k) => !s.down && s.queue != [] && k < 4 + |s.queue[0]|
    case Receive(_, answer) => s.reading && !answer.Disconnected?
    case StopReading => true
    case SetClosed => true
    case Drain => s.closed
  }

  predicate CanQueue(s: State, frame: Bytes) {
    !s.down && |s.queue| < QUEUE && Sendable(frame)
  }

  /** The bytes of the queue's first frame; the invariant says that every queued frame may be sent. */
  function HeadBytes(s: State): Bytes
    requires s.queue != []
  {
    if Sendable(s.queue[0]) then Framed(s.queue[0]) else []
  }

  function Put(s: State, frame: Bytes): State {
    s.(queue := s.queue + [frame], accepted := s.accepted + [frame])
  }

  function Apply(s: State, a: Step): State
    requires Enabled(s, a)
  {
    match a
    case CheckOpen => s.(cleared := s.cleared + 1)
    case TakeNumber => s.(cleared := s.cleared - 1, next := s.next + 1, calls := s.calls[s.next := Numbered])
    case Register(id) =>
      if |s.pending| >= MAX_PENDING then s.(calls := s.calls[id := Over])
      else s.(calls := s.calls[id := Waiting], pending := s.pending + {id})
    case Enqueue(id, frame) => Put(s.(calls := s.calls[id := Sent]), frame)
    case EnqueueReply(frame) => Put(s, frame)
    // The call returns, times out or is dropped: its guard takes its entry out of the table.
    case End(id) => s.(calls := s.calls[id := Over], pending := s.pending - {id})
    case WriteWhole => s.(queue := s.queue[1..], wire := s.wire + HeadBytes(s), written := s.written + [s.queue[0]])
    case WriteFails(k) =>
      s.(queue := s.queue[1..], down := true,
         wire := s.wire + if k <= |HeadBytes(s)| then HeadBytes(s)[..k] else [])
    case Receive(id, answer) =>
      if id in s.pending then s.(pending := s.pending - {id}, answers := s.answers[id := answer]) else s
    case StopReading => s.(reading := false)
    case SetClosed => s.(closed := true)
    case Drain =>
      s.(pending := {}, answers := s.answers + map id | id in s.pending :: Disconnected)
  }

  // ------------------------------------------------------------ the table of calls

  predicate TableOk(s: State) {
    && |s.pending| <= MAX_PENDING
    && (forall id :: id in s.calls ==> id < s.next)
    && (forall id :: id in s.pending ==> id in s.calls && s.calls[id] in {Waiting, Sent} && id !in s.answers)
    && (forall id :: id in s.answers ==> id in s.calls && s.calls[id] != Numbered)
  }

  lemma TableKept(s: State, a: Step)
    requires TableOk(s) && Enabled(s, a)
    ensures TableOk(Apply(s, a))
  {
    match a {
      case Register(id) => RegisterKeeps(s, id);
      case End(id) => EndKeeps(s, id);
      case Receive(id, answer) => ReceiveKeeps(s, id, answer);
      case Drain => DrainKeeps(s);
      case TakeNumber => NumberKeeps(s);
      case Enqueue(id, frame) => EnqueueKeeps(s, id, frame);
      case _ => OthersKeep(s, a);
    }
  }

  lemma OthersKeep(s: State, a: Step)
    requires TableOk(s) && Enabled(s, a)
    requires !a.Register? && !a.End? && !a.Receive? && !a.Drain? && !a.TakeNumber? && !a.Enqueue?
    ensures TableOk(Apply(s, a))
  {
    hide HeadBytes;
  }

  lemma NumberKeeps(s: State)
    requires TableOk(s) && Enabled(s, TakeNumber)
    ensures TableOk(Apply(s, TakeNumber))
  {
  }

  lemma EnqueueKeeps(s: State, id: nat, frame: Bytes)
    requires TableOk(s) && Enabled(s, Enqueue(id, frame))
    ensures TableOk(Apply(s, Enqueue(id, frame)))
  {
  }

  lemma RegisterKeeps(s: State, id: nat)
    requires TableOk(s) && Enabled(s, Register(id))
    ensures TableOk(Apply(s, Register(id)))
  {
    assert id !in s.answers && id !in s.pending;
  }

  lemma EndKeeps(s: State, id: nat)
    requires TableOk(s) && Enabled(s, End(id))
    ensures TableOk(Apply(s, End(id)))
  {
    SmallerSet(s.pending, id);
  }

  lemma ReceiveKeeps(s: State, id: nat, answer: Answer)
    requires TableOk(s) && Enabled(s, Receive(id, answer))
    ensures TableOk(Apply(s, Receive(id, answer)))
  {
    SmallerSet(s.pending, id);
  }

  lemma DrainKeeps(s: State)
    requires TableOk(s) && Enabled(s, Drain)
    ensures TableOk(Apply(s, Drain))
  {
    assert forall id :: id in Apply(s, Drain).answers ==> id in s.answers || id in s.pending;
  }

  lemma SmallerSet(s: set<nat>, id: nat)
    ensures |s - {id}| <= |s|
  {
    if id in s {
      assert s == (s - {id}) + {id};
    } else {
      assert s - {id} == s;
    }
  }

  // ------------------------------------------------------------ the stream

  predicate AllSendable(frames: seq<Bytes>) {
    forall f :: f in frames ==> Sendable(f)
  }

  /** The stream holds the frames written whole, and after a failure some beginning of the next one. */
  ghost predicate StreamOk(s: State) {
    && AllSendable(s.accepted)
    && (if s.down
        then exists frame, k :: FailedAt(s, frame, k)
        else s.accepted == s.written + s.queue && s.wire == Wire(s.written))
  }

  predicate FailedAt(s: State, frame: Bytes, k: nat)
    requires AllSendable(s.accepted)
  {
    && s.accepted == s.written + [frame] + s.queue
    && AllSendable(s.written) && Sendable(frame) && k < 4 + |frame|
    && s.wire == Wire(s.written) + Framed(frame)[..k]
  }

  lemma StreamKept(s: State, a: Step)
    requires StreamOk(s) && Enabled(s, a)
    ensures StreamOk(Apply(s, a))
  {
    hide Wire, Framed;
    var s' := Apply(s, a);
    match a {
      case Enqueue(id, frame) => assert s'.accepted == s'.written + s'.queue;
      case EnqueueReply(frame) => assert s'.accepted == s'.written + s'.queue;
      case WriteWhole => WriteWholeKeeps(s);
      case WriteFails(k) => WriteFailsKeeps(s, k);
      case _ =>
        if s.down {
          var frame, k :| FailedAt(s, frame, k);
          assert FailedAt(s', frame, k);
        }
    }
  }

  lemma WriteWholeKeeps(s: State)
    requires StreamOk(s) && Enabled(s, WriteWhole)
    ensures StreamOk(Apply(s, WriteWhole))
  {
    hide Wire, Framed;
    var head := s.queue[0];
    var s' := Apply(s, WriteWhole);
    assert head in s.accepted;
    assert forall f :: f in s.written ==> f in s.accepted;
    WireSnoc(s.written, head);
    assert s.queue == [head] + s.queue[1..];
    assert s.accepted == s'.written + s'.queue;
  }

  lemma WriteFailsKeeps(s: State, k: nat)
    requires StreamOk(s) && Enabled(s, WriteFails(k))
    ensures StreamOk(Apply(s, WriteFails(k)))
  {
    hide Wire, Framed;
    var head := s.queue[0];
    var s' := Apply(s, WriteFails(k));
    assert head in s.accepted;
    assert forall f :: f in s.written ==> f in s.accepted;
    assert s.queue == [head] + s.queue[1..];
    assert s.accepted == s'.written + [head] + s'.queue;
    FramedLength(head);
    assert FailedAt(s', head, k);
  }

  lemma FramedLength(frame: Bytes)
    requires Sendable(frame)
    ensures |Framed(frame)| == 4 + |frame|
  {
  }

  /** Main result: whatever callers are dropped and wherever the stream fails, the peer reads exactly the
      frames that were written whole: a prefix, in order, of the frames that were accepted. It never
      refuses one, and it misses none while the stream stands, except those still queued. */
  lemma PeerReads(s: State)
    requires StreamOk(s)
    ensures Read(s.wire) == Reading(s.written, false) && s.written <= s.accepted
    ensures !s.down ==> s.accepted == s.written + s.queue
  {
    hide Wire, Framed, Read;
    assert forall f :: f in s.written ==> f in s.accepted;
    if s.down {
      var frame, k :| FailedAt(s, frame, k);
      ReadsWhatIsWhole(s.written, frame, k);
      assert s.accepted == s.written + ([frame] + s.queue);
    } else {
      var none: Bytes := [];
      ReadsWhatIsWhole(s.written, none, 0);
      assert Wire(s.written) + Framed(none)[..0] == Wire(s.written);
    }
  }

  // ------------------------------------------------------------ runs

  predicate Run(states: seq<State>, steps: seq<Step>) {
    && |states| == |steps| + 1
    && states[0] == START
    && forall i :: 0 <= i < |steps| ==> Enabled(states[i], steps[i]) && states[i + 1] == Apply(states[i], steps[i])
  }

  lemma {:induction false} RunKeeps(states: seq<State>, steps: seq<Step>, n: nat)
    requires Run(states, steps) && n < |states|
    ensures TableOk(states[n]) && StreamOk(states[n])
  {
    if n > 0 {
      RunKeeps(states, steps, n - 1);
      assert Enabled(states[n - 1], steps[n - 1]) && states[n] == Apply(states[n - 1], steps[n - 1]);
      TableKept(states[n - 1], steps[n - 1]);
      StreamKept(states[n - 1], steps[n - 1]);
    } else {
      assert states[0].written + states[0].queue == [];
    }
  }

  /** Main result, for every run: the table holds at most 64 entries, each of a call that is still
      going on and has no answer; and the peer has read exactly what was written whole. */
  lemma EveryRun(states: seq<State>, steps: seq<Step>, n: nat)
    requires Run(states, steps) && n < |states|
    ensures var s := states[n];
            && |s.pending| <= MAX_PENDING
            && (forall id :: id in s.pending ==> Live(s, id) && id !in s.answers)
            && Read(s.wire) == Reading(s.written, false) && s.written <= s.accepted
  {
    RunKeeps(states, steps, n);
    PeerReads(states[n]);
  }

  // ------------------------------------------------------------ answers

  lemma AnswersStay(s: State, a: Step, id: nat)
    requires TableOk(s) && Enabled(s, a) && id in s.answers
    ensures id in Apply(s, a).answers && Apply(s, a).answers[id] == s.answers[id]
    ensures id !in Apply(s, a).pending
  {
    hide HeadBytes;
    assert s.calls[id] != Numbered;
  }

  lemma NewAnswer(s: State, a: Step, id: nat)
    requires Enabled(s, a) && id !in s.answers && id in Apply(s, a).answers
    ensures id in s.pending
    ensures a == Receive(id, Apply(s, a).answers[id]) || (a.Drain? && Apply(s, a).answers[id].Disconnected?)
  {
    hide HeadBytes;
  }

  /** Main result: a call is answered at most once, only by the reply that carries its number or by the
      end of the connection, and only while it is waiting in the table. */
  lemma {:induction false} AnsweredOnce(states: seq<State>, steps: seq<Step>, n: nat, id: nat) returns (at: nat)
    requires Run(states, steps) && n < |states| && id in states[n].answers
    ensures at < n && id in states[at].pending && id !in states[at].answers
    ensures steps[at] == Receive(id, states[n].answers[id]) || (steps[at].Drain? && states[n].answers[id].Disconnected?)
    ensures forall j :: at < j <= n ==> id in states[j].answers && states[j].answers[id] == states[n].answers[id]
  {
    hide Apply, Enabled, TableOk, StreamOk;
    assert n > 0;
    assert Enabled(states[n - 1], steps[n - 1]) && states[n] == Apply(states[n - 1], steps[n - 1]);
    RunKeeps(states, steps, n - 1);
    if id in states[n - 1].answers {
      AnswersStay(states[n - 1], steps[n - 1], id);
      at := AnsweredOnce(states, steps, n - 1, id);
    } else {
      NewAnswer(states[n - 1], steps[n - 1], id);
      at := n - 1;
    }
  }

  /** Nothing but the table and the answers may differ. */
  predicate SameStream(s: State, s': State) {
    && s'.queue == s.queue && s'.down == s.down && s'.wire == s.wire && s'.accepted == s.accepted
    && s'.written == s.written && s'.reading == s.reading && s'.next == s.next && s'.cleared == s.cleared
    && s'.closed == s.closed
  }

  /** A reply answers the call that waits for it, takes exactly its entry out of the table, and touches no
      other; one that nobody waits for is dropped. */
  lemma ReplyAnswers(s: State, id: nat, answer: Answer)
    requires Enabled(s, Receive(id, answer))
    ensures var s' := Apply(s, Receive(id, answer));
            && SameStream(s, s') && s'.calls == s.calls
            && (id in s.pending ==>
                  && id in s'.answers && s'.answers[id] == answer
                  && (forall o :: o in s'.pending <==> o in s.pending && o != id)
                  && (forall o :: o != id ==> (o in s'.answers <==> o in s.answers)
                                              && (o in s.answers ==> s'.answers[o] == s.answers[o])))
            && (id !in s.pending ==> s' == s)
  {
  }

  /** The end of the connection answers everyone who waits, with an error, and nobody else. */
  lemma DrainAnswers(s: State)
    requires Enabled(s, Drain) && TableOk(s)
    ensures var s' := Apply(s, Drain);
            && SameStream(s, s') && s'.calls == s.calls && s'.pending == {}
            && (forall id :: id in s'.answers <==> id in s.answers || id in s.pending)
            && (forall id :: id in s.answers ==> s'.answers[id] == s.answers[id])
            && (forall id :: id in s.pending ==> s'.answers[id] == Disconnected)
  {
  }

  /** A call enters the table if and only if fewer than 64 are in it; one that may not is over. */
  lemma RegisterExactly(s: State, id: nat)
    requires Enabled(s, Register(id)) && TableOk(s)
    ensures var s' := Apply(s, Register(id));
            && SameStream(s, s') && s'.answers == s.answers
            && (id in s'.pending <==> |s.pending| < 64)
            && (forall o :: o != id ==> (o in s'.pending <==> o in s.pending))
            && id in s'.calls && (if |s.pending| < 64 then s'.calls[id] == Waiting else s'.calls[id] == Over)
            && s'.calls.Keys == s.calls.Keys && forall o :: o in s.calls && o != id ==> s'.calls[o] == s.calls[o]
  {
    assert id !in s.pending;
  }

  /** A call that ends, however it does, leaves nothing in the table and takes nobody along. */
  lemma EndLeavesNothing(s: State, id: nat)
    requires Enabled(s, End(id))
    ensures var s' := Apply(s, End(id));
            && SameStream(s, s') && s'.answers == s.answers && !Live(s', id)
            && (forall o :: o in s'.pending <==> o in s.pending && o != id)
            && s'.calls.Keys == s.calls.Keys && forall o :: o in s.calls && o != id ==> s'.calls[o] == s.calls[o]
  {
  }

  /** Numbers are given out once, in order. */
  lemma NumbersAreNew(s: State)
    requires Enabled(s, TakeNumber) && TableOk(s)
    ensures var s' := Apply(s, TakeNumber);
            && s.next !in s.calls && s'.calls.Keys == s.calls.Keys + {s.next} && s'.calls[s.next] == Numbered && s'.next > s.next
            && s'.cleared == s.cleared - 1 && (forall o :: o in s.calls ==> s'.calls[o] == s.calls[o])
            && s'.pending == s.pending && s'.answers == s.answers
  {
  }

  /** At first nobody is on the way in and nothing waits; whoever sees the connection open is one more. */
  lemma ComingIn(s: State)
    ensures START.cleared == 0 && START.calls == map[] && START.pending == {} && START.queue == [] && START.reading && !START.closed
    ensures Enabled(s, CheckOpen) <==> !s.closed
    ensures !s.closed ==> Apply(s, CheckOpen) == s.(cleared := s.cleared + 1)
  {
  }

  /** A call queues its frame once. */
  lemma QueuedOnce(s: State, id: nat, frame: Bytes, again: Bytes)
    requires Enabled(s, Enqueue(id, frame))
    ensures var s' := Apply(s, Enqueue(id, frame));
            && s'.queue == s.queue + [frame] && s'.accepted == s.accepted + [frame] && Live(s', id) && !Enabled(s', Enqueue(id, again))
            && s'.pending == s.pending && s'.answers == s.answers
  {
  }

  /** Over every run at most 65 frames wait to be written: 64 in the channel and one in the writer's hands. */
  lemma {:induction false} QueueIsBounded(states: seq<State>, steps: seq<Step>, n: nat)
    requires Run(states, steps) && n < |states|
    ensures |states[n].queue| <= 65
  {
    if n > 0 {
      QueueIsBounded(states, steps, n - 1);
      assert Enabled(states[n - 1], steps[n - 1]) && states[n] == Apply(states[n - 1], steps[n - 1]);
      QueueGrows(states[n - 1], steps[n - 1]);
    }
  }

  lemma QueueGrows(s: State, a: Step)
    requires Enabled(s, a) && |s.queue| <= 65
    ensures |Apply(s, a).queue| <= 65
  {
    hide HeadBytes;
  }

  /** This step answers the call, at a moment when the call is in the table. */
  predicate Answers(s: State, a: Step, id: nat) {
    id in s.pending && ((a.Receive? && a.id == id) || a.Drain?)
  }

  lemma AnswerNext(s: State, a: Step, id: nat)
    requires Enabled(s, a) && TableOk(s)
    ensures id in Apply(s, a).answers <==> id in s.answers || Answers(s, a, id)
  {
    hide HeadBytes;
  }

  /** Main result: a call has an answer if and only if its reply arrived, or the connection ended, while it
      was in the table. */
  lemma {:induction false} AnsweredExactly(states: seq<State>, steps: seq<Step>, n: nat, id: nat)
    requires Run(states, steps) && n < |states|
    ensures id in states[n].answers <==> exists j :: 0 <= j < n && Answers(states[j], steps[j], id)
  {
    hide Apply, Enabled, TableOk, StreamOk, Answers;
    if n > 0 {
      assert Enabled(states[n - 1], steps[n - 1]) && states[n] == Apply(states[n - 1], steps[n - 1]);
      RunKeeps(states, steps, n - 1);
      AnswerNext(states[n - 1], steps[n - 1], id);
      AnsweredExactly(states, steps, n - 1, id);
      assert Answers(states[n - 1], steps[n - 1], id) ==> exists j :: 0 <= j < n && Answers(states[j], steps[j], id);
    }
  }

  /** One write gives the peer the next frame, and only that one. */
  lemma WriteGivesTheNext(s: State)
    requires StreamOk(s) && Enabled(s, WriteWhole)
    ensures var s' := Apply(s, WriteWhole);
            && Read(s'.wire).frames == Read(s.wire).frames + [s.queue[0]]
            && s'.queue == s.queue[1..] && s'.accepted == s.accepted && !s'.down
  {
    hide Wire, Framed, Read;
    StreamKept(s, WriteWhole);
    PeerReads(s);
    PeerReads(Apply(s, WriteWhole));
  }

  /** Main result: a connection that is open, reads, writes and has room serves a call. Its frame is written
      to the peer after those that were queued before it, and the reply is its answer. */
  lemma CallGoesThrough(s: State, frame: Bytes, value: string)
    returns (steps: seq<Step>)
    requires TableOk(s) && !s.closed && s.reading && !s.down && |s.pending| < 64 && |s.queue| < 65 && |frame| <= 1024 * 1024
    ensures Possible(s, steps)
    ensures var s' := Outcome(s, steps);
            && s'.answers == s.answers[s.next := Replied(value)] && s'.pending == s.pending
            && s'.accepted == s.accepted + [frame] && s'.queue == s.queue + [frame]
  {
    var id := s.next;
    steps := [CheckOpen, TakeNumber, Register(id), Enqueue(id, frame), Receive(id, Replied(value))];
    var s1 := Apply(s, CheckOpen);
    var s2 := Apply(s1, TakeNumber);
    assert id !in s.pending;
    var s3 := Apply(s2, Register(id));
    var s4 := Apply(s3, Enqueue(id, frame));
    var s5 := Apply(s4, Receive(id, Replied(value)));
    assert s3.pending == s.pending + {id} && s5.pending == s.pending;
    Follow(s, steps, s1);
    Follow(s1, steps[1..], s2);
    Follow(s2, steps[2..], s3);
    Follow(s3, steps[3..], s4);
    Follow(s4, steps[4..], s5);
    assert steps[1..][1..] == steps[2..] && steps[2..][1..] == steps[3..] && steps[3..][1..] == steps[4..];
    assert steps[4..][1..] == [];
    assert Possible(s5, []) && Outcome(s5, []) == s5;
  }

  lemma Follow(s: State, steps: seq<Step>, next: State)
    requires steps != [] && Enabled(s, steps[0]) && next == Apply(s, steps[0])
    ensures Possible(next, steps[1..]) ==> Possible(s, steps) && Outcome(s, steps) == Outcome(next, steps[1..])
  {
  }

  // ------------------------------------------------------------ closing

  /** Nobody is between seeing the connection open and entering the table. */
  predicate Settled(s: State) {
    s.closed && s.cleared == 0 && (forall id :: id in s.calls ==> s.calls[id] != Numbered) && s.pending == {}
  }

  /** Main result: once the connection is closed, the table drained and no caller on its way in, no call
      is ever numbered, registered or answered again. */
  lemma {:induction false} ClosedForGood(states: seq<State>, steps: seq<Step>, m: nat, n: nat)
    requires Run(states, steps) && m <= n < |states| && Settled(states[m])
    ensures Settled(states[n]) && states[n].answers == states[m].answers && states[n].calls.Keys == states[m].calls.Keys
  {
    if n > m {
      ClosedForGood(states, steps, m, n - 1);
      SettledStays(states[n - 1], steps[n - 1]);
      assert Enabled(states[n - 1], steps[n - 1]) && states[n] == Apply(states[n - 1], steps[n - 1]);
    }
  }

  lemma SettledStays(s: State, a: Step)
    requires Settled(s) && Enabled(s, a)
    ensures Settled(Apply(s, a)) && Apply(s, a).answers == s.answers && Apply(s, a).calls.Keys == s.calls.Keys
  {
    if a.Drain? {
      assert s.answers + (map id | id in s.pending :: Disconnected) == s.answers;
    }
  }

  predicate Possible(s: State, steps: seq<Step>)
    decreases |steps|
  {
    steps != [] ==> Enabled(s, steps[0]) && Possible(Apply(s, steps[0]), steps[1..])
  }

  function Outcome(s: State, steps: seq<Step>): State
    requires Possible(s, steps)
    decreases |steps|
  {
    if steps == [] then s else Outcome(Apply(s, steps[0]), steps[1..])
  }

  lemma {:induction false} SettledEnds(s: State, steps: seq<Step>)
    requires Settled(s) && Possible(s, steps)
    ensures Settled(Outcome(s, steps))
    decreases |steps|
  {
    hide Settled, Apply, Enabled;
    if steps != [] {
      SettledStays(s, steps[0]);
      SettledEnds(Apply(s, steps[0]), steps[1..]);
    }
  }

  lemma RegisterEnters(s: State, id: nat)
    requires s.pending == {} && Enabled(s, Register(id))
    ensures Possible(s, [Register(id)]) && Outcome(s, [Register(id)]).pending == {id}
  {
    var r := Apply(s, Register(id));
    assert [Register(id)][1..] == [];
    assert Possible(r, []) && Outcome(r, []) == r;
  }

  lemma NumberEnters(s: State) returns (steps: seq<Step>)
    requires TableOk(s) && s.pending == {} && s.cleared > 0
    ensures Possible(s, steps) && Outcome(s, steps).pending != {}
  {
    var r := Apply(s, TakeNumber);
    RegisterEnters(r, s.next);
    steps := [TakeNumber, Register(s.next)];
    assert steps[1..] == [Register(s.next)];
    assert s.next in Outcome(r, steps[1..]).pending;
  }

  /** Main result: the table of a closed connection, once drained, stays empty along every continuation if
      and only if no caller is on its way in. */
  lemma DrainedForGood(s: State)
    requires TableOk(s) && s.closed && s.pending == {}
    ensures (forall steps | Possible(s, steps) :: Outcome(s, steps).pending == {}) <==>
            s.cleared == 0 && forall id :: id in s.calls ==> s.calls[id] != Numbered
  {
    hide TableOk;
    if s.cleared == 0 && forall id :: id in s.calls ==> s.calls[id] != Numbered {
      forall steps | Possible(s, steps)
        ensures Outcome(s, steps).pending == {}
      {
        SettledEnds(s, steps);
      }
    } else if s.cleared == 0 {
      var id :| id in s.calls && s.calls[id] == Numbered;
      RegisterEnters(s, id);
    } else {
      var steps := NumberEnters(s);
    }
  }

  /** A caller that looked before the connection closed can still enter the table after it was drained.
      Its frame may even be sent; its entry stays until its own time limit takes it out. */
  lemma LateEntryWaits() returns (states: seq<State>, steps: seq<Step>)
    ensures Run(states, steps)
    ensures var s := states[|states| - 1]; s.closed && !s.reading && s.pending == {1} && 1 !in s.answers
  {
    steps := [CheckOpen, TakeNumber, StopReading, SetClosed, Drain, Register(1)];
    hide HeadBytes, CanQueue;
    var s1 := Apply(START, CheckOpen);
    var s2 := Apply(s1, TakeNumber);
    var s3 := Apply(s2, StopReading);
    var s4 := Apply(s3, SetClosed);
    var s5 := Apply(s4, Drain);
    assert s5.pending == {} && s5.calls[1] == Numbered;
    var s6 := Apply(s5, Register(1));
    assert s5.answers == map[];
    assert s6.pending == {1};
    states := [START, s1, s2, s3, s4, s5, s6];
    hide Apply;
    SixSteps(states, steps);
  }

  lemma SixSteps(states: seq<State>, steps: seq<Step>)
    requires |states| == 7 && |steps| == 6 && states[0] == START
    requires Enabled(states[0], steps[0]) && states[1] == Apply(states[0], steps[0])
    requires Enabled(states[1], steps[1]) && states[2] == Apply(states[1], steps[1])
    requires Enabled(states[2], steps[2]) && states[3] == Apply(states[2], steps[2])
    requires Enabled(states[3], steps[3]) && states[4] == Apply(states[3], steps[3])
    requires Enabled(states[4], steps[4]) && states[5] == Apply(states[4], steps[4])
    requires Enabled(states[5], steps[5]) && states[6] == Apply(states[5], steps[5])
    ensures Run(states, steps)
  {
    hide Apply, Enabled;
  }
}
