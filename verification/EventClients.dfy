/** The two clients that resume an event stream by cursor: the web page
    (packages/api/src/queries.ts, packages/api/src/sse.ts) and the terminal
    (crates/komo-client/src/sse.rs). A connection is the list of frames a client got from it
    before it was cut; what the gateway promises about such a list is `Served`. */
module EventClients {
  import opened EventLog

  // ------------------------------------------------------------ the web page

  /** One page of history: the first `limit` events after `from`. */
  datatype Page = Page(events: seq<LogEvent>, next: nat, more: bool)

  function PageOf(log: seq<LogEvent>, from: nat, limit: nat): Page {
    var all := After(log, from);
    var events := if |all| > limit then all[..limit] else all;
    Page(events, if events == [] then from else events[|events| - 1].num, |all| > limit)
  }

  /** A page is the beginning of what there is after the number, as long as it may be, and says whether there
      is more. */
  lemma PageIsABeginning(log: seq<LogEvent>, from: nat, limit: nat)
    ensures var p, all := PageOf(log, from, limit), After(log, from);
            && p.events <= all && (|p.events| == limit || p.events == all) && |p.events| <= limit
            && (p.more <==> |all| > limit)
            && p.next == if p.events == [] then from else p.events[|p.events| - 1].num
  {
    hide After;
  }

  /** What the page holds: the cached events, the number they reach, and the stream's cursor. */
  datatype WebState = WebState(events: seq<LogEvent>, next: nat, cursor: nat)

  function WebFrame(s: WebState, f: StreamFrame): WebState {
    if !f.Raw? then s
    else
      var e := f.event;
      var t := s.(cursor := Max(s.cursor, Id(f)));
      if s.events != [] && e.num <= s.events[|s.events| - 1].num then t
      else t.(events := s.events + [e], next := e.num)
  }

  function WebFrames(s: WebState, frames: seq<StreamFrame>): WebState
    decreases |frames|
  {
    if frames == [] then s else WebFrames(WebFrame(s, frames[0]), frames[1..])
  }

  /** Every connection resumes from the cursor the one before left. */
  function WebSession(s: WebState, connections: seq<seq<StreamFrame>>): WebState
    decreases |connections|
  {
    if connections == [] then s else WebSession(WebFrames(s, connections[0]), connections[1..])
  }

  predicate WebServed(log: seq<LogEvent>, s: WebState, connections: seq<seq<StreamFrame>>)
    decreases |connections|
  {
    connections != [] ==>
      && Served(log, s.cursor, connections[0])
      && WebServed(log, WebFrames(s, connections[0]), connections[1..])
  }

  /** The cache is the log up to some point and the cursor stands exactly there. */
  predicate WebOk(log: seq<LogEvent>, s: WebState) {
    s.events <= log && s.next == Top(0, s.events) && s.cursor == s.next
  }

  const RETRY_MIN_MS: nat := 1000
  const RETRY_MAX_MS: nat := 15000

  /** The page's subscription: the closure's variables, and the query cache it writes to. */
  class WebClient {
    var events: seq<LogEvent>
    var next: nat
    var cursor: nat
    var delay: nat
    var stopped: bool

    function State(): WebState reads this { WebState(events, next, cursor) }

    constructor ()
      ensures State() == WebState([], 0, 0) && delay == 1000 && !stopped
    {
      events, next, cursor, delay, stopped := [], 0, 0, RETRY_MIN_MS, false;
    }

    /** Pages through the history, then subscribes from where it ended. `logs[i]` is the log when
        page `i` is served and `limits[i]` that page's size. */
    method Load(logs: seq<seq<LogEvent>>, limits: seq<nat>) returns (ready: bool)
      requires |logs| == |limits| > 0
      requires forall i | 0 <= i < |logs| :: Increasing(logs[i]) && logs[i] <= logs[|logs| - 1]
      requires forall i, j | 0 <= i <= j < |logs| :: logs[i] <= logs[j]
      modifies this
      ensures ready ==> WebOk(logs[|logs| - 1], State())
      ensures ready ==> exists i | 0 <= i < |logs| :: events == logs[i]
      ensures !ready ==> State() == old(State())
      ensures (forall i | 0 <= i < |logs| :: limits[i] > 0) && |logs| > |logs[|logs| - 1]| ==> ready
      ensures delay == old(delay) && stopped == old(stopped)
    {
      ghost var final := logs[|logs| - 1];
      var got: seq<LogEvent>, from := [], 0;
      var i := 0;
      while i < |logs|
        invariant i <= |logs|
        invariant got <= final && from == Top(0, got)
        invariant if i == 0 then got == [] else got <= logs[i - 1]
        invariant (forall j | 0 <= j < |logs| :: limits[j] > 0) ==> |got| >= i
        invariant State() == old(State()) && delay == old(delay) && stopped == old(stopped)
      {
        var page := PageOf(logs[i], from, limits[i]);
        if i > 0 { PrefixTrans(got, logs[i - 1], logs[i]); }
        PageExtends(logs[i], got, limits[i]);
        PageIsABeginning(logs[i], from, limits[i]);
        got := got + page.events;
        from := page.next;
        PrefixTrans(got, logs[i], final);
        if !page.more {
          events, next, cursor := got, from, from;
          return true;
        }
        i := i + 1;
      }
      return false;
    }

    method OnOpen()
      modifies this`delay
      ensures delay == 1000
    {
      delay := RETRY_MIN_MS;
    }

    method OnFrame(frame: StreamFrame)
      modifies this`events, this`next, this`cursor
      ensures State() == WebFrame(old(State()), frame)
    {
      if frame.Raw? {
        cursor := Max(cursor, Id(frame));
        var event := frame.event;
        if events != [] && event.num <= events[|events| - 1].num {
          return;
        }
        events, next := events + [event], event.num;
      }
    }

    /** The stream broke: returns after how long to open the next one, from the cursor. */
    method OnError() returns (wait: nat)
      requires 1000 <= delay <= 15000
      modifies this`delay
      ensures stopped ==> delay == old(delay)
      ensures wait == old(delay)
      ensures !stopped ==> delay == (if 2 * wait < 15000 then 2 * wait else 15000) && wait <= delay <= 15000
    {
      wait := delay;
      if !stopped {
        delay := if delay * 2 < RETRY_MAX_MS then delay * 2 else RETRY_MAX_MS;
      }
    }

    method Stop()
      modifies this`stopped
      ensures stopped
    {
      stopped := true;
    }
  }

  /** A page read after a prefix of the log extends it to a longer prefix; the last page completes it. */
  lemma PageExtends(log: seq<LogEvent>, got: seq<LogEvent>, limit: nat)
    requires Increasing(log) && got <= log
    ensures var p := PageOf(log, Top(0, got), limit);
            && got + p.events <= log && p.next == Top(0, got + p.events)
            && (!p.more ==> got + p.events == log)
  {
    hide After, Increasing;
    var p := PageOf(log, Top(0, got), limit);
    assert got == log[..|got|];
    TailAfter(log, |got|);
    var all := log[|got|..];
    assert p.events == all[..|p.events|];
    assert got + all == log;
    assert got + p.events == log[..|got| + |p.events|];
    if p.events == [] {
      assert got + p.events == got;
    } else {
      TopGrows(log, got, p.events);
    }
  }

  lemma TopGrows(log: seq<LogEvent>, got: seq<LogEvent>, more: seq<LogEvent>)
    requires Increasing(log) && got + more <= log && more != []
    ensures Top(0, got + more) == more[|more| - 1].num
  {
    assert (got + more)[|got + more| - 1] == more[|more| - 1];
  }

  lemma PrefixTrans(a: seq<LogEvent>, b: seq<LogEvent>, c: seq<LogEvent>)
    requires a <= b <= c
    ensures a <= c
  {
    assert a == b[..|a|] == c[..|a|];
  }

  /** Reading after a prefix of the log reads the rest of it. */
  lemma TailAfter(log: seq<LogEvent>, k: nat)
    requires Increasing(log) && k <= |log|
    ensures After(log, Top(0, log[..k])) == log[k..]
  {
    hide After, Top;
    AfterContinues(log, k, 0);
    AfterAll(log, 0);
    AfterAll(log[..k], 0);
    assert log == log[..k] + log[k..];
  }

  /** One connection extends the cached prefix by exactly the events it carried. */
  lemma {:induction false} WebConnection(log: seq<LogEvent>, s: WebState, frames: seq<StreamFrame>)
    requires Increasing(log) && WebOk(log, s) && Served(log, s.cursor, frames)
    ensures WebOk(log, WebFrames(s, frames))
    ensures WebFrames(s, frames).events == s.events + Raws(frames)
    ensures WebFrames(s, frames).cursor >= s.cursor
    decreases |frames|
  {
    hide Increasing, After, Top;
    if frames == [] {
      assert s.events + [] == s.events;
    } else {
      var f := frames[0];
      var t := WebFrame(s, f);
      if f.Raw? {
        ServedHead(log, s.events, frames);
        assert t.events == s.events + [f.event];
        assert (s.events + [f.event]) + Raws(frames[1..]) == s.events + ([f.event] + Raws(frames[1..]));
      } else {
        assert Raws(frames) == [] + Raws(frames[1..]);
      }
      WebConnection(log, t, frames[1..]);
    }
  }

  /** The first raw event of a connection is the next one of the log, and the rest follow it. */
  lemma ServedHead(log: seq<LogEvent>, events: seq<LogEvent>, frames: seq<StreamFrame>)
    requires Increasing(log) && events <= log && frames != [] && frames[0].Raw?
    requires Served(log, Top(0, events), frames)
    ensures var e := frames[0].event;
            && events + [e] <= log && e.num > Top(0, events) && Top(0, events + [e]) == e.num
            && (events != [] ==> e.num > events[|events| - 1].num)
            && Served(log, e.num, frames[1..])
  {
    var k := |events|;
    assert events == log[..k];
    TailAfter(log, k);
    var e := frames[0].event;
    var rest := Raws(frames[1..]);
    assert Raws(frames) == [e] + rest;
    assert Raws(frames)[0] == e;
    assert k < |log| && log[k..][0] == e == log[k];
    BelowTop(log, k, 0);
    assert log[..k + 1] == events + [e];
    TailAfter(log, k + 1);
    assert (events + [e])[k] == e;
    assert log[k + 1..] == log[k..][1..];
    assert rest == Raws(frames)[1..];
  }

  /** The raw events of all connections, in the order they came. */
  function Carried(connections: seq<seq<StreamFrame>>): seq<LogEvent> {
    if connections == [] then [] else Raws(connections[0]) + Carried(connections[1..])
  }

  /** Exactly once for the page: over any number of connects, cuts and reconnects the cache is a
      gap-free, duplicate-free prefix of the log, made of all that the connections carried and of nothing
      else, and the cursor stands at its end and never falls. */
  lemma {:induction false} WebExactlyOnce(log: seq<LogEvent>, s: WebState, connections: seq<seq<StreamFrame>>)
    requires Increasing(log) && WebOk(log, s) && WebServed(log, s, connections)
    ensures WebOk(log, WebSession(s, connections))
    ensures WebSession(s, connections).cursor >= s.cursor
    ensures WebSession(s, connections).events == s.events + Carried(connections)
    decreases |connections|
  {
    hide Served, WebOk, WebFrames;
    if connections != [] {
      WebConnection(log, s, connections[0]);
      WebExactlyOnce(log, WebFrames(s, connections[0]), connections[1..]);
      assert (s.events + Raws(connections[0])) + Carried(connections[1..]) == s.events + (Raws(connections[0]) + Carried(connections[1..]));
    } else {
      assert s.events + [] == s.events;
    }
  }

  // ------------------------------------------------------------ the terminal

  /** What the terminal has been given, and the cursor it would resume from. */
  datatype TermState = TermState(got: seq<StreamFrame>, cursor: nat)

  /** Every message, readable or not, sets the cursor to its own number. */
  function TermFrames(s: TermState, frames: seq<StreamFrame>): TermState
    decreases |frames|
  {
    if frames == [] then s
    else TermFrames(TermState(s.got + [frames[0]], Id(frames[0])), frames[1..])
  }

  function TermSession(s: TermState, connections: seq<seq<StreamFrame>>): TermState
    decreases |connections|
  {
    if connections == [] then s else TermSession(TermFrames(s, connections[0]), connections[1..])
  }

  predicate TermServed(log: seq<LogEvent>, s: TermState, connections: seq<seq<StreamFrame>>)
    decreases |connections|
  {
    connections != [] ==>
      && Served(log, s.cursor, connections[0]) && SourceFirst(s.cursor, connections[0])
      && TermServed(log, TermFrames(s, connections[0]), connections[1..])
  }

  /** Nothing between the first cursor and the present one is missing. */
  predicate NoHole(log: seq<LogEvent>, start: nat, s: TermState) {
    forall e | e in log && start < e.num <= s.cursor :: e in Raws(s.got)
  }

  lemma {:induction false} TermClosed(s: TermState, frames: seq<StreamFrame>)
    ensures TermFrames(s, frames).got == s.got + frames
    ensures TermFrames(s, frames).cursor == if frames == [] then s.cursor else Id(frames[|frames| - 1])
    decreases |frames|
  {
    if frames == [] {
      assert s.got + [] == s.got;
    } else {
      TermClosed(TermState(s.got + [frames[0]], Id(frames[0])), frames[1..]);
      assert (s.got + [frames[0]]) + frames[1..] == s.got + frames;
      assert |frames| > 1 ==> frames[1..][|frames| - 2] == frames[|frames| - 1];
    }
  }

  /** How far a connection's last frame can put the cursor: no further than its raw events reach. */
  lemma LastReach(cursor: nat, frames: seq<StreamFrame>)
    requires SourceFirst(cursor, frames) && frames != []
    ensures frames[|frames| - 1].Raw? ==> Raws(frames) != [] && Raws(frames)[|Raws(frames)| - 1] == frames[|frames| - 1].event
    ensures Id(frames[|frames| - 1]) <= Top(cursor, Raws(frames))
  {
    var n := |frames| - 1;
    var f := frames[n];
    assert frames == frames[..n] + [f];
    RawsAppend(frames[..n], [f]);
    assert [f][1..] == [];
    assert Raws([f]) == RawOf(f);
    if !f.Raw? { assert Raws(frames[..n]) + [] == Raws(frames[..n]); }
  }

  lemma TermConnection(log: seq<LogEvent>, start: nat, s: TermState, frames: seq<StreamFrame>)
    requires Increasing(log) && NoHole(log, start, s)
    requires Served(log, s.cursor, frames) && SourceFirst(s.cursor, frames)
    ensures NoHole(log, start, TermFrames(s, frames))
  {
    hide Raws, After, Top, Increasing, SourceFirst, TermFrames;
    TermClosed(s, frames);
    var t := TermFrames(s, frames);
    if frames == [] {
      assert s.got + frames == s.got;
    } else {
      LastReach(s.cursor, frames);
      RawsAppend(s.got, frames);
      forall e | e in log && start < e.num <= t.cursor
        ensures e in Raws(t.got)
      {
        if e.num > s.cursor {
          PrefixReach(log, s.cursor, Raws(frames), e);
        }
      }
    }
  }

  /** All frames of all connections, in the order they came. */
  function Given(connections: seq<seq<StreamFrame>>): seq<StreamFrame> {
    if connections == [] then [] else connections[0] + Given(connections[1..])
  }

  /** The terminal has all that its connections carried, and its cursor is the number of the last of it. */
  lemma {:induction false} TermHasAll(s: TermState, connections: seq<seq<StreamFrame>>)
    ensures TermSession(s, connections).got == s.got + Given(connections)
    ensures TermSession(s, connections).cursor ==
            if Given(connections) == [] then s.cursor else Id(Given(connections)[|Given(connections)| - 1])
    decreases |connections|
  {
    hide TermFrames, Id;
    if connections == [] {
      assert s.got + [] == s.got;
    } else {
      var t, rest := TermFrames(s, connections[0]), Given(connections[1..]);
      TermClosed(s, connections[0]);
      TermHasAll(t, connections[1..]);
      assert (s.got + connections[0]) + rest == s.got + (connections[0] + rest);
      if rest == [] {
        assert connections[0] + rest == connections[0];
      } else {
        assert (connections[0] + rest)[|connections[0] + rest| - 1] == rest[|rest| - 1];
      }
    }
  }

  /** No holes for the terminal: over any number of disconnects, every event between where it first
      subscribed and the cursor it would resume from has been delivered. */
  lemma {:induction false} TermNoHoles(log: seq<LogEvent>, start: nat, s: TermState, connections: seq<seq<StreamFrame>>)
    requires Increasing(log) && NoHole(log, start, s) && TermServed(log, s, connections)
    ensures NoHole(log, start, TermSession(s, connections))
    decreases |connections|
  {
    hide Served, SourceFirst, NoHole, TermFrames;
    if connections != [] {
      TermConnection(log, start, s, connections[0]);
      TermNoHoles(log, start, TermFrames(s, connections[0]), connections[1..]);
    }
  }

  /** The highest number the terminal has come to: where it started, or that of an event it was given. */
  function Reached(start: nat, events: seq<LogEvent>): nat {
    if events == [] then start else Max(Reached(start, events[..|events| - 1]), events[|events| - 1].num)
  }

  /** Everything up to the highest number has been given, and the cursor is nowhere above it. */
  predicate Abreast(log: seq<LogEvent>, start: nat, s: TermState) {
    var high := Reached(start, Raws(s.got));
    && s.cursor <= high
    && (forall e | e in Raws(s.got) :: e in log && e.num <= high)
    && (forall e | e in log && start < e.num <= high :: e in Raws(s.got))
  }

  lemma {:induction false} ReachedAppend(start: nat, a: seq<LogEvent>, b: seq<LogEvent>)
    ensures Reached(start, a + b) == Reached(Reached(start, a), b)
  {
    if b == [] {
      assert a + b == a;
    } else {
      var n := |b| - 1;
      assert (a + b)[..|a| + n] == a + b[..n];
      ReachedAppend(start, a, b[..n]);
    }
  }

  /** Reading on from a cursor comes as far as its last event. */
  lemma {:induction false} ReachedReading(log: seq<LogEvent>, high: nat, cursor: nat, got: seq<LogEvent>)
    requires Increasing(log) && got <= After(log, cursor) && cursor <= high
    ensures Reached(high, got) == Max(high, Top(cursor, got))
  {
    if got != [] {
      var n := |got| - 1;
      ReachedReading(log, high, cursor, got[..n]);
      var k := AfterIsTail(log, cursor);
      PrefixIsWindow(log, k, got);
      PrefixIsWindow(log, k, got[..n]);
    }
  }

  lemma AbreastConnection(log: seq<LogEvent>, start: nat, s: TermState, frames: seq<StreamFrame>)
    requires Increasing(log) && Abreast(log, start, s)
    requires Served(log, s.cursor, frames) && SourceFirst(s.cursor, frames)
    ensures Abreast(log, start, TermFrames(s, frames))
  {
    hide Raws, After, Top, Increasing, SourceFirst, TermFrames, Reached;
    TermClosed(s, frames);
    var t := TermFrames(s, frames);
    var high, got := Reached(start, Raws(s.got)), Raws(frames);
    RawsAppend(s.got, frames);
    ReachedAppend(start, Raws(s.got), got);
    ReachedReading(log, high, s.cursor, got);
    AfterMembers(log, s.cursor, got);
    if frames != [] {
      LastReach(s.cursor, frames);
    }
    forall e | e in log && start < e.num <= Reached(start, Raws(t.got))
      ensures e in Raws(t.got)
    {
      PrefixReach(log, s.cursor, got, e);
    }
    forall e | e in got
      ensures e.num <= Reached(start, Raws(t.got))
    {
      PrefixReach(log, s.cursor, got, e);
    }
  }

  lemma {:induction false} AbreastSession(log: seq<LogEvent>, start: nat, s: TermState, connections: seq<seq<StreamFrame>>)
    requires Increasing(log) && Abreast(log, start, s) && TermServed(log, s, connections)
    ensures Abreast(log, start, TermSession(s, connections))
    decreases |connections|
  {
    hide Served, SourceFirst, Abreast, TermFrames;
    if connections != [] {
      AbreastConnection(log, start, s, connections[0]);
      AbreastSession(log, start, TermFrames(s, connections[0]), connections[1..]);
    }
  }

  /** At least once is all it gives. After any number of connections, the next event a new one carries is
      one the terminal has had already if and only if its number is not above the highest it has come to;
      and that is so if and only if the cursor stands below that number, when it is an event's. */
  lemma ReplaysExactlyWhenBehind(log: seq<LogEvent>, start: nat, connections: seq<seq<StreamFrame>>, next: LogEvent)
    requires Increasing(log) && TermServed(log, TermState([], start), connections)
    requires [next] <= After(log, TermSession(TermState([], start), connections).cursor)
    ensures var s := TermSession(TermState([], start), connections);
            var high := Reached(start, Raws(s.got));
            && (next.num <= start || next in Raws(s.got) <==> next.num <= high)
            && ((exists e :: e in log && e.num == high) ==>
                  (next.num <= start || next in Raws(s.got) <==> s.cursor < high))
  {
    hide After, Increasing, TermServed, TermSession;
    AbreastSession(log, start, TermState([], start), connections);
    var s := TermSession(TermState([], start), connections);
    NextIsFirstBeyond(log, s.cursor, next);
    ReachedFromStart(start, Raws(s.got));
  }

  lemma {:induction false} ReachedFromStart(start: nat, events: seq<LogEvent>)
    ensures start <= Reached(start, events)
  {
    if events != [] {
      ReachedFromStart(start, events[..|events| - 1]);
    }
  }

  lemma NextIsFirstBeyond(log: seq<LogEvent>, id: nat, next: LogEvent)
    requires Increasing(log) && [next] <= After(log, id)
    ensures next in log && next.num > id && forall e | e in log && e.num > id :: next.num <= e.num
  {
    hide After;
    var k := AfterIsTail(log, id);
    assert [next][0] == log[k..][0];
    assert next == log[k];
  }

  lemma AfterMembers(log: seq<LogEvent>, cursor: nat, got: seq<LogEvent>)
    requires Increasing(log) && got <= After(log, cursor)
    ensures forall e | e in got :: e in log
  {
    var k := AfterIsTail(log, cursor);
    forall e | e in got
      ensures e in log
    {
      var i :| 0 <= i < |got| && got[i] == e;
      assert got[i] == log[k..][i] == log[k + i];
    }
  }
}
