/** `EventHub` (crates/komo-gateway/src/sse.rs): one broadcast channel per session, created by the first
    subscriber and swept once nobody listens, and a count of the clients that are watching. */
module EventHub {
  import opened Text
  import EventServer

  // ------------------------------------------------------------ frames

  datatype RunState = Accepted | Queued | Running | Waiting | Abandoned | Completed | Failed | Cancelled

  datatype Payload = RunAccepted | RunQueued | RunStarted | RunWaiting | RunAbandoned | RunCompleted | RunFailed
                   | RunCancelled | RunReclaimed | OtherPayload(what: string)

  datatype Event = Event(num: nat, session: string, run: Option<string>, payload: Payload)

  datatype SseEvent = Source(event: Event) | RunStatus(run: string, state: RunState)
  datatype SseFrame = SseFrame(id: nat, session: string, event: SseEvent)

  function StateOf(p: Payload): Option<RunState> {
    match p
    case RunAccepted => Some(Accepted)
    case RunQueued => Some(Queued)
    case RunStarted => Some(Running)
    case RunWaiting => Some(Waiting)
    case RunAbandoned => Some(Abandoned)
    case RunCompleted => Some(Completed)
    case RunFailed => Some(Failed)
    case RunCancelled => Some(Cancelled)
    case RunReclaimed => None
    case OtherPayload(_) => None
  }

  /** What a run that is in this state has just told. */
  function Telling(state: RunState): Payload {
    match state
    case Accepted => RunAccepted
    case Queued => RunQueued
    case Running => RunStarted
    case Waiting => RunWaiting
    case Abandoned => RunAbandoned
    case Completed => RunCompleted
    case Failed => RunFailed
    case Cancelled => RunCancelled
  }

  /** Each event of a run tells its own state and no two tell the same; a reclaimed run and everything else
      tell none, and nor does an event that belongs to no run. */
  lemma TellsItsState(e: Event, run: string, state: RunState)
    ensures DerivedFrames(e) == [RunStatus(run, state)] <==> e.run == Some(run) && e.payload == Telling(state)
    ensures e.run.None? || e.payload.RunReclaimed? || e.payload.OtherPayload? <==> DerivedFrames(e) == []
    ensures |DerivedFrames(e)| <= 1
  {
    assert DerivedFrames(e) == [RunStatus(run, state)] ==> DerivedFrames(e)[0] == RunStatus(run, state);
  }

  function DerivedFrames(e: Event): seq<SseEvent> {
    if e.run.Some? && StateOf(e.payload).Some? then [RunStatus(e.run.value, StateOf(e.payload).value)] else []
  }

  /** Everything one event puts on its session's channel, in order. */
  function FramesOf(e: Event): (frames: seq<SseFrame>)
    ensures frames != [] && frames[0] == SseFrame(e.num, e.session, Source(e))
    ensures |frames| == 1 + |DerivedFrames(e)| && forall i :: 0 < i < |frames| ==> frames[i].event == DerivedFrames(e)[i - 1]
    ensures forall f :: f in frames ==> f.id == e.num && f.session == e.session
    ensures forall i :: 0 < i < |frames| ==> frames[i].event.RunStatus?
  {
    var derived := DerivedFrames(e);
    [SseFrame(e.num, e.session, Source(e))]
    + seq(|derived|, i requires 0 <= i < |derived| => SseFrame(e.num, e.session, derived[i]))
  }

  /** The position a client resumes from: its own header if it is a number, else the address. */
  function CursorFrom(lastEventId: Option<string>, from: nat): nat {
    if lastEventId.Some? && ParseU64(Trim(lastEventId.value)).Some? then ParseU64(Trim(lastEventId.value)).value else from
  }

  /** Without a number of its own a client starts where its address says. */
  lemma StartsWhereTold(header: string, from: nat)
    ensures CursorFrom(None, from) == from
    ensures ParseU64(Trim(header)).None? ==> CursorFrom(Some(header), from) == from
  {
  }

  /** A client that sends back the id it was given resumes exactly there. */
  lemma ResumesWhereItStopped(cursor: nat, from: nat)
    requires cursor < U64_LIMIT
    ensures CursorFrom(Some(Decimal(cursor)), from) == cursor
  {
    DecimalParses(cursor);
  }

  // ------------------------------------------------------------ channels

  class Channel {
    /** The receivers that have not been dropped; the sender sees only their number. */
    var receivers: set<Receiver>

    constructor ()
      ensures receivers == {}
    {
      receivers := {};
    }
  }

  class Receiver {
    const channel: Channel
    ghost const session: string
    var buffer: seq<SseFrame>
    var lagged: bool
    /** Every frame that was put on the channel since this receiver subscribed. */
    ghost var heard: seq<SseFrame>

    constructor (channel: Channel, ghost session: string)
      ensures this.channel == channel && this.session == session && buffer == [] && !lagged && heard == []
    {
      this.channel, this.session, buffer, lagged, heard := channel, session, [], false, [];
    }
  }

  class Viewer {
    const session: string

    constructor (session: string)
      ensures this.session == session
    {
      this.session := session;
    }
  }

  /** A full buffer loses its oldest frame. */
  function Buffered(buffer: seq<SseFrame>, f: SseFrame): seq<SseFrame> {
    if |buffer| < EventServer.CAPACITY then buffer + [f] else buffer[1..] + [f]
  }

  ghost function Watching(guards: set<Viewer>, s: string): set<Viewer> {
    set v | v in guards && v.session == s
  }

  ghost predicate Counts(viewers: map<string, nat>, guards: set<Viewer>) {
    forall s :: (s in viewers <==> Watching(guards, s) != {}) && (s in viewers ==> viewers[s] == |Watching(guards, s)|)
  }

  lemma CountsGrow(viewers: map<string, nat>, guards: set<Viewer>, v: Viewer)
    requires Counts(viewers, guards) && v !in guards
    ensures Counts(viewers[v.session := (if v.session in viewers then viewers[v.session] else 0) + 1], guards + {v})
  {
    var viewers' := viewers[v.session := (if v.session in viewers then viewers[v.session] else 0) + 1];
    forall s
      ensures (s in viewers' <==> Watching(guards + {v}, s) != {}) && (s in viewers' ==> viewers'[s] == |Watching(guards + {v}, s)|)
    {
      assert Watching(guards + {v}, s) == Watching(guards, s) + if s == v.session then {v} else {};
      if s == v.session {
        assert v in Watching(guards + {v}, s);
      } else {
        assert Watching(guards + {v}, s) == Watching(guards, s);
      }
    }
  }

  lemma CountsShrink(viewers: map<string, nat>, guards: set<Viewer>, v: Viewer)
    requires Counts(viewers, guards) && v in guards
    ensures v.session in viewers && viewers[v.session] > 0
    ensures var fewer := viewers[v.session := viewers[v.session] - 1];
            Counts(if viewers[v.session] == 1 then fewer - {v.session} else fewer, guards - {v})
  {
    assert v in Watching(guards, v.session);
    var fewer := viewers[v.session := viewers[v.session] - 1];
    var viewers' := if viewers[v.session] == 1 then fewer - {v.session} else fewer;
    forall s
      ensures (s in viewers' <==> Watching(guards - {v}, s) != {}) && (s in viewers' ==> viewers'[s] == |Watching(guards - {v}, s)|)
    {
      if s == v.session {
        assert Watching(guards - {v}, s) == Watching(guards, s) - {v};
        assert |Watching(guards, s) - {v}| == |Watching(guards, s)| - 1;
        assert Watching(guards - {v}, s) == {} <==> |Watching(guards - {v}, s)| == 0;
      } else {
        assert Watching(guards - {v}, s) == Watching(guards, s);
      }
    }
  }

  class Hub {
    var channels: map<string, Channel>
    var viewers: map<string, nat>
    ghost var live: set<Receiver>
    ghost var guards: set<Viewer>

    /** Every live receiver listens on the channel that its session is published to, and on no other;
        the channels of different sessions are different. */
    ghost predicate Attached()
      reads this`channels, this`live, channels.Values`receivers
    {
      && (forall r :: r in live ==> r.session in channels && channels[r.session] == r.channel && r in r.channel.receivers)
      && (forall s :: s in channels ==> forall r :: r in channels[s].receivers ==> r in live && r.session == s)
      && (forall s, t :: s in channels && t in channels && channels[s] == channels[t] ==> s == t)
    }

    /** The count is the number of guards, and a session nobody watches is not in the table. */
    ghost predicate Counted()
      reads this`viewers, this`guards
    {
      Counts(viewers, guards)
    }

    /** What a receiver can still be given, against what it heard: all of it unless it lags. */
    ghost predicate Delivered()
      reads this`live, live`buffer, live`lagged, live`heard
    {
      forall r :: r in live ==> Suffix(r.buffer, r.heard)
    }

    ghost predicate Valid()
      reads this, channels.Values`receivers, live
    {
      Attached() && Counted() && Delivered()
    }

    constructor ()
      ensures Valid() && live == {} && guards == {}
    {
      channels, viewers, live, guards := map[], map[], {}, {};
    }

    // ---------------------------------------------------------- receivers

    ghost predicate Heard(s: string)
      reads this`live
    {
      exists r :: r in live && r.session == s
    }

    /** Drops the channels that nobody listens to. */
    method Sweep()
      requires Attached()
      modifies this`channels
      ensures Attached()
      ensures forall s :: s in channels <==> Heard(s)
      ensures forall s :: s in channels ==> s in old(channels) && channels[s] == old(channels)[s]
    {
      channels := map s | s in channels && channels[s].receivers != {} :: channels[s];
      forall s | s in channels
        ensures Heard(s)
      {
        var r :| r in channels[s].receivers;
      }
    }

    method Open(session: string) returns (channel: Channel)
      requires Attached()
      modifies this`channels
      ensures Attached() && session in channels && channels[session] == channel
      ensures forall s :: s in channels <==> s == session || s in old(channels)
      ensures forall s :: s in old(channels) ==> s in channels && channels[s] == old(channels)[s]
      ensures session !in old(channels) ==> fresh(channel)
    {
      if session !in channels {
        var added := new Channel();
        channels := channels[session := added];
      }
      channel := channels[session];
    }

    method Join(channel: Channel, session: string) returns (r: Receiver)
      requires Attached() && Delivered() && session in channels && channels[session] == channel
      modifies this`live, channel`receivers
      ensures Attached() && Delivered() && live == old(live) + {r}
      ensures fresh(r) && r.session == session && r.heard == [] && r.buffer == [] && !r.lagged
    {
      r := new Receiver(channel, session);
      channel.receivers := channel.receivers + {r};
      live := live + {r};
    }

    /** Sweeping on the way, a new subscriber joins the channel its session is published to. No
        receiver that is still alive is detached by it. */
    method Subscribe(session: string) returns (r: Receiver)
      requires Valid()
      modifies this`channels, this`live, channels.Values`receivers
      ensures Valid() && fresh(r) && r.session == session && r.heard == [] && r.buffer == [] && !r.lagged
      ensures live == old(live) + {r}
      ensures forall s :: s in channels <==> Heard(s)
    {
      hide Attached, Counted, Delivered;
      Sweep();
      var channel := Open(session);
      ghost var before := live;
      r := Join(channel, session);
      forall s
        ensures s in channels <==> Heard(s)
      {
        HeardGrows(s, before, r);
      }
    }

    lemma HeardGrows(s: string, before: set<Receiver>, r: Receiver)
      requires live == before + {r}
      ensures Heard(s) <==> s == r.session || exists o :: o in before && o.session == s
    {
    }

    /** A connection ends. */
    method DropReceiver(r: Receiver)
      requires Valid() && r in live
      modifies this`live, r.channel`receivers
      ensures Valid() && live == old(live) - {r}
    {
      r.channel.receivers := r.channel.receivers - {r};
      live := live - {r};
    }

    /** The channel's own send: each receiver buffers the frame. */
    method Send(listening: set<Receiver>, f: SseFrame)
      modifies listening`buffer, listening`lagged, listening`heard
      ensures forall r :: r in listening ==>
                && r.heard == old(r.heard) + [f]
                && r.buffer == Buffered(old(r.buffer), f)
                && (r.lagged <==> old(r.lagged) || |old(r.buffer)| >= EventServer.CAPACITY)
    {
      forall r | r in listening {
        r.lagged := r.lagged || |r.buffer| >= EventServer.CAPACITY;
      }
      forall r | r in listening {
        r.buffer := Buffered(r.buffer, f);
      }
      forall r | r in listening {
        r.heard := r.heard + [f];
      }
    }

    /** A frame reaches every live receiver of its session and nobody else. */
    method Publish(f: SseFrame)
      requires Valid()
      modifies this`channels, live`buffer, live`lagged, live`heard
      ensures Valid()
      ensures forall r :: r in live && r.session == f.session ==>
                && r.heard == old(r.heard) + [f]
                && r.buffer == Buffered(old(r.buffer), f)
                && (r.lagged <==> old(r.lagged) || |old(r.buffer)| >= 256)
      ensures forall r :: r in live && r.session != f.session ==>
                r.heard == old(r.heard) && r.buffer == old(r.buffer) && r.lagged == old(r.lagged)
      ensures f.session in channels ==> Heard(f.session)
    {
      hide Counted;
      if f.session !in channels { return; }
      var listening := channels[f.session].receivers;
      if listening == {} {
        channels := channels - {f.session};
        return;
      }
      Send(listening, f);
      forall r | r in live
        ensures Suffix(r.buffer, r.heard)
      {
        if r in listening {
          BufferedSuffix(old(r.buffer), old(r.heard), f);
        }
      }
    }

    /** `publish_event`: each live receiver of the session hears the event, then its state frame; a buffer keeps
        the newest of them and is marked if any had to go. */
    method PublishEvent(e: Event)
      requires Valid()
      modifies this`channels, live`buffer, live`lagged, live`heard
      ensures Valid()
      ensures forall r :: r in live && r.session == e.session ==>
                && r.heard == old(r.heard) + FramesOf(e)
                && r.buffer == Newest(old(r.buffer) + FramesOf(e))
                && (r.lagged <==> old(r.lagged) || |old(r.buffer)| + |FramesOf(e)| > 256)
      ensures forall r :: r in live && r.session != e.session ==>
                r.heard == old(r.heard) && r.buffer == old(r.buffer) && r.lagged == old(r.lagged)
    {
      hide Attached, Counted, Newest, Buffered;
      var source := SseFrame(e.num, e.session, Source(e));
      Publish(source);
      var derived := DerivedFrames(e);
      assert FramesOf(e)[..1] == [source];
      forall r | r in live && r.session == e.session
        ensures r.buffer == Newest(old(r.buffer) + FramesOf(e)[..1])
      {
        NewestFits(old(r.buffer));
        BufferedIsNewest(old(r.buffer), source);
      }
      for i := 0 to |derived|
        invariant Valid()
        invariant forall r :: r in live && r.session == e.session ==>
                    && r.heard == old(r.heard) + FramesOf(e)[..i + 1]
                    && r.buffer == Newest(old(r.buffer) + FramesOf(e)[..i + 1])
                    && (r.lagged <==> old(r.lagged) || |old(r.buffer)| + (i + 1) > 256)
        invariant forall r :: r in live && r.session != e.session ==>
                    r.heard == old(r.heard) && r.buffer == old(r.buffer) && r.lagged == old(r.lagged)
      {
        label before:
        ghost var f := SseFrame(e.num, e.session, derived[i]);
        Publish(SseFrame(e.num, e.session, derived[i]));
        assert FramesOf(e)[..i + 2] == FramesOf(e)[..i + 1] + [f];
        forall r | r in live && r.session == e.session
          ensures r.heard == old(r.heard) + FramesOf(e)[..i + 2]
          ensures r.buffer == Newest(old(r.buffer) + FramesOf(e)[..i + 2])
          ensures r.lagged <==> old(r.lagged) || |old(r.buffer)| + (i + 2) > 256
        {
          var was := old(r.buffer) + FramesOf(e)[..i + 1];
          assert old@before(r.heard) == old(r.heard) + FramesOf(e)[..i + 1];
          assert was + [f] == old(r.buffer) + FramesOf(e)[..i + 2];
          BufferedIsNewest(was, f);
          NewestFits(was);
        }
      }
      assert FramesOf(e)[..|derived| + 1] == FramesOf(e);
    }

    // ---------------------------------------------------------- viewers

    method Watch(session: string) returns (v: Viewer)
      requires Valid()
      modifies this`viewers, this`guards
      ensures Valid() && fresh(v) && v.session == session && guards == old(guards) + {v}
    {
      hide Attached, Delivered, Counts;
      v := new Viewer(session);
      CountsGrow(viewers, guards, v);
      viewers := viewers[session := (if session in viewers then viewers[session] else 0) + 1];
      guards := guards + {v};
    }

    /** `Viewer::drop`: the guard's session loses one viewer; the last one takes the entry with it. */
    method DropViewer(v: Viewer)
      requires Valid() && v in guards
      modifies this`viewers, this`guards
      ensures Valid() && guards == old(guards) - {v}
    {
      hide Attached, Delivered, Counts;
      CountsShrink(viewers, guards, v);
      if v.session in viewers {
        var count := if viewers[v.session] > 0 then viewers[v.session] - 1 else 0;
        viewers := viewers[v.session := count];
        if count == 0 {
          viewers := viewers - {v.session};
        }
      }
      guards := guards - {v};
    }

    /** Exactly the guards that are alive are counted. */
    method Viewers(session: string) returns (n: nat)
      requires Valid()
      ensures n == |Watching(guards, session)|
    {
      n := if session in viewers then viewers[session] else 0;
    }
  }

  predicate Suffix(buffer: seq<SseFrame>, heard: seq<SseFrame>) {
    && |buffer| <= EventServer.CAPACITY && |buffer| <= |heard|
    && buffer == heard[|heard| - |buffer|..]
  }

  /** The newest frames that a buffer can hold. */
  function Newest(frames: seq<SseFrame>): seq<SseFrame> {
    if |frames| <= EventServer.CAPACITY then frames else frames[|frames| - EventServer.CAPACITY..]
  }

  lemma NewestFits(frames: seq<SseFrame>)
    ensures |Newest(frames)| == if |frames| <= EventServer.CAPACITY then |frames| else EventServer.CAPACITY
    ensures |frames| <= EventServer.CAPACITY ==> Newest(frames) == frames
  {
  }

  lemma BufferedIsNewest(frames: seq<SseFrame>, f: SseFrame)
    ensures Buffered(Newest(frames), f) == Newest(frames + [f])
  {
  }

  lemma BufferedSuffix(buffer: seq<SseFrame>, heard: seq<SseFrame>, f: SseFrame)
    requires Suffix(buffer, heard)
    ensures Suffix(Buffered(buffer, f), heard + [f])
  {
  }
}
