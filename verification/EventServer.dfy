/** One event-stream connection of the gateway, interleaved with the log it serves
    (crates/komo-gateway/src/http/v2/events.rs, crates/komo-gateway/src/sse.rs).
    The handler subscribes to the live channel, then reads history from the log, then filters
    live frames by number; the channel keeps at most CAPACITY frames for a slow reader. */
module EventServer {
  import opened EventLog

  const CAPACITY: nat := 256

  /** `queue`, `last`, `live` and `lagged` are the handler's own state. The rest records what
      happened and is read by no step: the frames `sent`, the derived frames `heard` on the channel
      since subscribing, the log index `covered` by history and live frames handled so far, and the
      log index `first` of the next event the channel will hand over. */
  datatype Conn = Conn(
    from: nat, streaming: bool, queue: seq<StreamFrame>, last: nat, live: seq<StreamFrame>, lagged: bool,
    sent: seq<StreamFrame>, heard: seq<StreamFrame>, everLagged: bool, covered: nat, first: nat)

  /** `published` counts the log events already pushed to the channel. */
  datatype World = World(log: seq<LogEvent>, published: nat, conn: Conn)

  datatype Action =
    | Append(event: LogEvent)
    | PublishRaw
    | PublishDerived(id: nat, what: string)
    | Backfill(shots: seq<string>)
    | SendQueued
    | Receive
    | CatchUp(shotsAfter: seq<string>)
    | CatchUpFails

  function LastNum(log: seq<LogEvent>, n: nat): nat
    requires n <= |log|
  {
    if n == 0 then 0 else log[n - 1].num
  }

  /** A client connects with cursor `from`: the handler has subscribed and not yet read history. */
  function Connected(log: seq<LogEvent>, published: nat, from: nat): World {
    World(log, published, Conn(from, false, [], from, [], false, [], [], false, 0, published))
  }

  predicate Enabled(w: World, a: Action) {
    var c := w.conn;
    match a
    case Append(e) => e.num > LastNum(w.log, |w.log|)
    case PublishRaw => w.published < |w.log|
    case PublishDerived(_, _) => true
    case Backfill(_) => !c.streaming
    case SendQueued => c.streaming && c.queue != []
    case Receive => c.streaming && c.queue == [] && !c.lagged && c.live != []
    case CatchUp(_) => c.streaming && c.queue == [] && c.lagged
    case CatchUpFails => c.streaming && c.queue == [] && c.lagged
  }

  /** Is this live frame one the backfill has already given? Only raw events are filtered. */
  predicate AlreadySent(f: StreamFrame, last: nat) {
    Id(f) <= last && f.Raw?
  }

  /** The channel: a full buffer loses its oldest frame and the reader is marked as lagging. */
  function Offer(c: Conn, f: StreamFrame): Conn {
    var c := c.(heard := c.heard + HintOf(f));
    if |c.live| < CAPACITY then c.(live := c.live + [f])
    else c.(live := c.live[1..] + [f], lagged := true, everLagged := true,
            first := if c.live[0].Raw? then c.first + 1 else c.first)
  }

  /** History after `last`, then the snapshots, numbered like the last of it. */
  function History(log: seq<LogEvent>, last: nat, shots: seq<string>): seq<StreamFrame> {
    var events := After(log, last);
    var at := if events == [] then last else events[|events| - 1].num;
    FramesOf(events) + Shots(at, shots)
  }

  function Shots(at: nat, shots: seq<string>): seq<StreamFrame> {
    seq(|shots|, i requires 0 <= i < |shots| => Snapshot(at, shots[i]))
  }

  function Apply(w: World, a: Action): World
    requires Enabled(w, a)
  {
    var c := w.conn;
    match a
    case Append(e) => w.(log := w.log + [e])
    case PublishRaw => w.(published := w.published + 1, conn := Offer(c, Raw(w.log[w.published])))
    case PublishDerived(id, what) => w.(conn := Offer(c, Derived(id, what)))
    case Backfill(shots) =>
      w.(conn := c.(streaming := true, queue := History(w.log, c.from, shots), covered := |w.log|))
    case SendQueued =>
      w.(conn := c.(queue := c.queue[1..], last := Max(c.last, Id(c.queue[0])), sent := c.sent + [c.queue[0]]))
    case Receive =>
      var f := c.live[0];
      var d := c.(live := c.live[1..],
                  first := if f.Raw? then c.first + 1 else c.first,
                  covered := if f.Raw? && c.first >= c.covered then c.first + 1 else c.covered);
      w.(conn := if AlreadySent(f, c.last) then d else d.(last := Max(c.last, Id(f)), sent := c.sent + [f]))
    case CatchUp(shots) =>
      w.(conn := c.(lagged := false, queue := History(w.log, c.last, shots), covered := |w.log|))
    case CatchUpFails => w.(conn := c.(lagged := false))
  }

  /** The feed pushes a derived frame only after the event it is numbered by, and the read after a
      lag succeeds. */
  predicate Orderly(w: World, a: Action) {
    && (a.PublishDerived? ==> w.published <= |w.log| && a.id <= LastNum(w.log, w.published))
    && !a.CatchUpFails?
  }

  /** `ws` is a run of the world under `actions`, every step orderly. */
  predicate Run(ws: seq<World>, actions: seq<Action>) {
    && |ws| == |actions| + 1
    && forall i | 0 <= i < |actions| ::
         Enabled(ws[i], actions[i]) && Orderly(ws[i], actions[i]) && ws[i + 1] == Apply(ws[i], actions[i])
  }

  // ------------------------------------------------------------ the invariant

  /** The live buffer holds the events `log[first..published]` in order, with derived frames between
      them that never run ahead. */
  predicate LiveFrom(log: seq<LogEvent>, first: nat, published: nat, live: seq<StreamFrame>)
    decreases |live|
  {
    if live == [] then first == published
    else match live[0]
      case Raw(e) => first < |log| && e == log[first] && LiveFrom(log, first + 1, published, live[1..])
      case Derived(id, _) => first <= |log| && id <= LastNum(log, first) && LiveFrom(log, first, published, live[1..])
      case Snapshot(_, _) => false
  }

  function TopId(last: nat, queue: seq<StreamFrame>): nat
    decreases |queue|
  {
    if queue == [] then last else TopId(Max(last, Id(queue[0])), queue[1..])
  }

  predicate Inv(w: World) {
    var c := w.conn;
    && Increasing(w.log) && w.published <= |w.log|
    && c.first <= w.published && c.covered <= |w.log|
    && LiveFrom(w.log, c.first, w.published, c.live)
    && (!c.streaming ==> c.sent == [] && c.queue == [] && c.last == c.from)
    && (c.streaming ==> StreamOk(w.log, c))
    && (!c.everLagged ==> !c.lagged && Hints(c.queue) == [] && Hints(c.sent) + Hints(c.live) == c.heard)
  }

  predicate StreamOk(log: seq<LogEvent>, c: Conn)
    requires c.covered <= |log|
  {
    && Raws(c.sent + c.queue) == After(log[..c.covered], c.from)
    && SourceFirst(c.from, c.sent + c.queue)
    && TopId(c.last, c.queue) == Top(c.from, log[..c.covered])
    && (!c.lagged ==> c.first <= c.covered)
  }

  lemma InvInit(log: seq<LogEvent>, published: nat, from: nat)
    requires Increasing(log) && published <= |log|
    ensures Inv(Connected(log, published, from))
  {
  }

  // ------------------------------------------------------------ the channel

  lemma {:induction false} LiveGrows(log: seq<LogEvent>, first: nat, published: nat, live: seq<StreamFrame>, f: StreamFrame)
    requires LiveFrom(log, first, published, live) && published <= |log|
    requires f.Derived? ==> f.id <= LastNum(log, published)
    requires f.Raw? ==> published < |log| && f.event == log[published]
    requires !f.Snapshot?
    ensures LiveFrom(log, first, if f.Raw? then published + 1 else published, live + [f])
    decreases |live|
  {
    if live == [] {
      assert [f][1..] == [];
    } else {
      assert (live + [f])[1..] == live[1..] + [f];
      LiveGrows(log, if live[0].Raw? then first + 1 else first, published, live[1..], f);
    }
  }

  lemma {:induction false} LiveLater(log: seq<LogEvent>, more: seq<LogEvent>, first: nat, published: nat, live: seq<StreamFrame>)
    requires LiveFrom(log, first, published, live) && first <= |log|
    ensures LiveFrom(log + more, first, published, live)
    decreases |live|
  {
    if live != [] {
      LiveLater(log, more, if live[0].Raw? then first + 1 else first, published, live[1..]);
    }
  }

  lemma {:induction false} LiveBound(log: seq<LogEvent>, first: nat, published: nat, live: seq<StreamFrame>)
    requires LiveFrom(log, first, published, live)
    ensures first <= published
    decreases |live|
  {
    if live != [] {
      LiveBound(log, if live[0].Raw? then first + 1 else first, published, live[1..]);
    }
  }

  lemma HintsStep(a: seq<StreamFrame>, live: seq<StreamFrame>, f: StreamFrame, heard: seq<StreamFrame>)
    requires Hints(a) + Hints(live) == heard
    ensures Hints(a) + Hints(live + [f]) == heard + HintOf(f)
  {
    HintsAppend(live, [f]);
    assert [f][1..] == [];
    assert Hints(a) + (Hints(live) + HintOf(f)) == (Hints(a) + Hints(live)) + HintOf(f);
  }

  lemma OfferKeeps(w: World, f: StreamFrame, published: nat)
    requires Inv(w) && !f.Snapshot?
    requires f.Derived? ==> f.id <= LastNum(w.log, w.published) && published == w.published
    requires f.Raw? ==> w.published < |w.log| && f.event == w.log[w.published] && published == w.published + 1
    ensures Inv(World(w.log, published, Offer(w.conn, f)))
  {
    hide After, Raws, SourceFirst, TopId, Top, Increasing;
    var c := w.conn;
    LiveGrows(w.log, c.first, w.published, c.live, f);
    LiveBound(w.log, c.first, w.published, c.live);
    if |c.live| < CAPACITY {
      if !c.everLagged { HintsStep(c.sent, c.live, f, c.heard); }
    } else {
      assert (c.live + [f])[1..] == c.live[1..] + [f];
      var d := Offer(c, f);
      LiveBound(w.log, d.first, published, d.live);
    }
  }

  // ------------------------------------------------------------ history

  lemma {:induction false} TopIdAppend(last: nat, a: seq<StreamFrame>, b: seq<StreamFrame>)
    ensures TopId(last, a + b) == TopId(TopId(last, a), b)
    decreases |a|
  {
    if a == [] {
      assert a + b == b;
    } else {
      assert (a + b)[1..] == a[1..] + b;
      TopIdAppend(Max(last, Id(a[0])), a[1..], b);
    }
  }

  lemma {:induction false} TopIdOfEvents(last: nat, events: seq<LogEvent>)
    requires Increasing(events)
    ensures TopId(last, FramesOf(events)) == Top(last, events)
    decreases |events|
  {
    if events != [] {
      assert FramesOf(events)[1..] == FramesOf(events[1..]);
      IncreasingTail(events);
      TopIdOfEvents(Max(last, events[0].num), events[1..]);
      assert |events| > 1 ==> events[1..][|events| - 2] == events[|events| - 1];
    }
  }

  lemma {:induction false} ShotsAreIdle(last: nat, at: nat, shots: seq<string>)
    requires at <= last
    ensures TopId(last, Shots(at, shots)) == last && Raws(Shots(at, shots)) == [] && Hints(Shots(at, shots)) == []
  {
    if shots != [] {
      assert Shots(at, shots)[1..] == Shots(at, shots[1..]);
      ShotsAreIdle(last, at, shots[1..]);
    }
  }

  /** A frame no newer than the top may follow. */
  lemma SourceFirstSnoc(from: nat, frames: seq<StreamFrame>, f: StreamFrame)
    requires SourceFirst(from, frames)
    requires !f.Raw? ==> Id(f) <= Top(from, Raws(frames))
    ensures SourceFirst(from, frames + [f])
  {
    hide Raws, Top;
    var all := frames + [f];
    forall i | 0 <= i < |all| && !all[i].Raw?
      ensures Id(all[i]) <= Top(from, Raws(all[..i]))
    {
      if i < |frames| {
        assert all[..i] == frames[..i];
      } else {
        assert all[..i] == frames;
      }
    }
  }

  lemma {:induction false} SourceFirstShots(from: nat, frames: seq<StreamFrame>, at: nat, shots: seq<string>)
    requires SourceFirst(from, frames) && at <= Top(from, Raws(frames))
    ensures SourceFirst(from, frames + Shots(at, shots))
    decreases |shots|
  {
    hide Raws, Top, SourceFirst;
    if shots == [] {
      assert frames + Shots(at, shots) == frames;
    } else {
      var one := frames + [Snapshot(at, shots[0])];
      SourceFirstSnoc(from, frames, Snapshot(at, shots[0]));
      RawsAppend(frames, [Snapshot(at, shots[0])]);
      RawsOne(Snapshot(at, shots[0]));
      assert Raws(frames) + [] == Raws(frames);
      assert one + Shots(at, shots[1..]) == frames + Shots(at, shots);
      SourceFirstShots(from, one, at, shots[1..]);
    }
  }

  /** Events in order put every one of them before the next. */
  lemma SourceFirstEvents(from: nat, frames: seq<StreamFrame>, events: seq<LogEvent>)
    requires SourceFirst(from, frames)
    ensures SourceFirst(from, frames + FramesOf(events))
  {
    hide Raws, Top;
    var all := frames + FramesOf(events);
    forall i | 0 <= i < |all| && !all[i].Raw?
      ensures Id(all[i]) <= Top(from, Raws(all[..i]))
    {
      assert i < |frames|;
      assert all[..i] == frames[..i];
    }
  }

  /** Reading history from where the connection stands makes it cover the whole log. */
  lemma HistoryCovers(log: seq<LogEvent>, from: nat, sent: seq<StreamFrame>, last: nat, covered: nat, shots: seq<string>)
    requires Increasing(log) && covered <= |log|
    requires Raws(sent) == After(log[..covered], from) && SourceFirst(from, sent)
    requires last == Top(from, log[..covered])
    ensures var queue := History(log, last, shots);
            && Raws(sent + queue) == After(log, from)
            && SourceFirst(from, sent + queue)
            && TopId(last, queue) == Top(from, log)
            && Hints(queue) == []
  {
    hide Raws, Hints, SourceFirst, TopId, Increasing, After;
    var events := After(log, last);
    var at := if events == [] then last else events[|events| - 1].num;
    var raw, idle := FramesOf(events), Shots(at, shots);
    AfterContinues(log, covered, from);
    RawsOfFrames(events);
    RawsAppend(sent, raw);
    var k := AfterIsTail(log, last);
    TailIncreasing(log, k);
    TopIdOfEvents(last, events);
    TopOfAll(log, from, covered, k);
    ShotsAreIdle(Top(last, events), at, shots);
    TopIdAppend(last, raw, idle);
    RawsAppend(sent + raw, idle);
    HintsAppend(raw, idle);
    SourceFirstEvents(from, sent, events);
    ReadTop(log, from);
    SourceFirstShots(from, sent + raw, at, shots);
    assert (sent + raw) + idle == sent + (raw + idle);
    assert Raws(sent + raw) + [] == Raws(sent + raw);
  }

  lemma TailIncreasing(log: seq<LogEvent>, k: nat)
    requires Increasing(log) && k <= |log|
    ensures Increasing(log[k..])
  {
  }

  lemma TopOfAll(log: seq<LogEvent>, from: nat, covered: nat, k: nat)
    requires Increasing(log) && covered <= |log| && k <= |log|
    requires var last := Top(from, log[..covered]);
             && (forall i | 0 <= i < k :: log[i].num <= last)
             && (forall i | k <= i < |log| :: log[i].num > last)
    ensures Top(Top(from, log[..covered]), log[k..]) == Top(from, log)
  {
    if covered > 0 { assert log[..covered][covered - 1] == log[covered - 1]; }
    if k < |log| { assert log[k..][|log| - k - 1] == log[|log| - 1]; }
  }

  /** Everything read from a cursor reaches as far as the log does. */
  lemma ReadTop(log: seq<LogEvent>, from: nat)
    requires Increasing(log)
    ensures Top(from, After(log, from)) == Top(from, log)
  {
    hide After;
    var k := AfterIsTail(log, from);
    if k < |log| { assert log[k..][|log| - k - 1] == log[|log| - 1]; }
  }

  // ------------------------------------------------------------ every step keeps the invariant

  lemma SendKeeps(w: World)
    requires Inv(w) && Enabled(w, SendQueued)
    ensures Inv(Apply(w, SendQueued))
  {
    hide After, Raws, SourceFirst, Top, Increasing, LiveFrom;
    var c := w.conn;
    var d := Apply(w, SendQueued).conn;
    assert d.sent + d.queue == c.sent + c.queue;
    if !c.everLagged {
      HintsAppend(c.sent, [c.queue[0]]);
      HintsOne(c.queue[0]);
      assert Hints(c.queue) == HintOf(c.queue[0]) + Hints(c.queue[1..]);
      assert Hints(c.sent) + [] == Hints(c.sent);
    }
  }

  lemma HintsOne(f: StreamFrame)
    ensures Hints([f]) == HintOf(f)
  {
    assert [f][1..] == [];
  }

  lemma RawsOne(f: StreamFrame)
    ensures Raws([f]) == RawOf(f)
  {
    assert [f][1..] == [];
  }

  /** One more event covered. */
  lemma CoverNext(log: seq<LogEvent>, n: nat, from: nat)
    requires Increasing(log) && n < |log|
    ensures After(log[..n + 1], from) == After(log[..n], from) + (if log[n].num > from then [log[n]] else [])
    ensures Top(from, log[..n + 1]) == Max(Top(from, log[..n]), log[n].num)
    ensures log[n].num > Top(from, log[..n]) <==> log[n].num > from
  {
    assert log[..n + 1] == log[..n] + [log[n]];
    AfterAppend(log[..n], [log[n]], from);
    assert [log[n]][1..] == [];
    BelowTop(log, n, from);
  }

  /** A live event that history has covered already is dropped. */
  lemma ReceiveOld(w: World)
    requires Inv(w) && Enabled(w, Receive) && w.conn.live[0].Raw? && w.conn.first < w.conn.covered
    ensures Inv(Apply(w, Receive))
  {
    hide After, Raws, SourceFirst, Top, Increasing, TopId;
    var c := w.conn;
    var d := Apply(w, Receive).conn;
    LiveBound(w.log, d.first, w.published, d.live);
    TopIdEmpty(c.last);
    BelowTop(w.log, c.covered, c.from);
    assert w.log[..c.covered][c.first] == c.live[0].event;
    assert AlreadySent(c.live[0], c.last);
    assert Hints(c.live) == [] + Hints(c.live[1..]);
  }

  /** The next live event is sent, unless the cursor is already past it. */
  lemma ReceiveNext(w: World)
    requires Inv(w) && Enabled(w, Receive) && w.conn.live[0].Raw? && w.conn.first == w.conn.covered
    ensures Inv(Apply(w, Receive))
  {
    hide After, Raws, SourceFirst, Top, Increasing, TopId, Hints;
    var c := w.conn;
    var f := c.live[0];
    var d := Apply(w, Receive).conn;
    LiveBound(w.log, d.first, w.published, d.live);
    TopIdEmpty(c.last);
    TopIdEmpty(d.last);
    assert c.sent + [] == c.sent && d.sent + [] == d.sent;
    CoverNext(w.log, c.covered, c.from);
    RawsAppend(c.sent, [f]);
    RawsOne(f);
    SourceFirstSnoc(c.from, c.sent, f);
    var read := After(w.log[..c.covered], c.from);
    assert read + [] == read;
    RawIsNoHint(c.sent, c.live);
  }

  lemma RawIsNoHint(sent: seq<StreamFrame>, live: seq<StreamFrame>)
    requires live != [] && live[0].Raw?
    ensures Hints(live[1..]) == Hints(live) && Hints(sent + [live[0]]) == Hints(sent)
  {
    assert Hints(live) == [] + Hints(live[1..]);
    HintsAppend(sent, [live[0]]);
    HintsOne(live[0]);
    assert Hints(sent) + [] == Hints(sent);
  }

  lemma ReceiveRaw(w: World)
    requires Inv(w) && Enabled(w, Receive) && w.conn.live[0].Raw?
    ensures Inv(Apply(w, Receive))
  {
    if w.conn.first < w.conn.covered { ReceiveOld(w); } else { ReceiveNext(w); }
  }

  lemma TopIdEmpty(last: nat)
    ensures TopId(last, []) == last
  {
  }

  lemma ReceiveDerived(w: World)
    requires Inv(w) && Enabled(w, Receive) && !w.conn.live[0].Raw?
    ensures Inv(Apply(w, Receive))
  {
    hide After, Raws, SourceFirst, Increasing, TopId;
    var c := w.conn;
    var d := Apply(w, Receive).conn;
    var f := c.live[0];
    LiveBound(w.log, d.first, w.published, d.live);
    TopIdEmpty(c.last);
    TopIdEmpty(d.last);
    assert c.sent + [] == c.sent && d.sent + [] == d.sent;
    NotAhead(w.log, c.first, c.covered, c.from);
    HintsAppend(c.sent, [f]);
    HintsOne(f);
    assert Hints(c.live) == HintOf(f) + Hints(c.live[1..]);
    assert (Hints(c.sent) + HintOf(f)) + Hints(c.live[1..]) == Hints(c.sent) + (HintOf(f) + Hints(c.live[1..]));
    RawsAppend(c.sent, [f]);
    RawsOne(f);
    assert Raws(c.sent) + [] == Raws(c.sent);
    CoveredTop(w.log, c.covered, c.from);
    SourceFirstSnoc(c.from, c.sent, f);
  }

  lemma NotAhead(log: seq<LogEvent>, first: nat, covered: nat, from: nat)
    requires Increasing(log) && first <= covered <= |log|
    ensures LastNum(log, first) <= Top(from, log[..covered])
  {
    if first > 0 { assert log[..covered][covered - 1] == log[covered - 1]; }
  }

  lemma CoveredTop(log: seq<LogEvent>, covered: nat, from: nat)
    requires Increasing(log) && covered <= |log|
    ensures Top(from, After(log[..covered], from)) == Top(from, log[..covered])
  {
    hide After, Top;
    HeadIncreasing(log, covered);
    ReadTop(log[..covered], from);
  }

  lemma HeadIncreasing(log: seq<LogEvent>, k: nat)
    requires Increasing(log) && k <= |log|
    ensures Increasing(log[..k])
  {
  }

  lemma HistoryKeeps(w: World, a: Action)
    requires Inv(w) && Enabled(w, a) && (a.Backfill? || a.CatchUp?)
    ensures Inv(Apply(w, a))
  {
    hide After, Raws, Hints, SourceFirst, Top, Increasing, TopId, LiveFrom, History;
    var c := w.conn;
    var d := Apply(w, a).conn;
    assert w.log[..|w.log|] == w.log;
    TopIdEmpty(c.last);
    assert c.sent + [] == c.sent;
    if a.Backfill? {
      ReadNothing(c.from);
      assert w.log[..0] == [];
      HistoryCovers(w.log, c.from, [], c.from, 0, a.shots);
    } else {
      HistoryCovers(w.log, c.from, c.sent, c.last, c.covered, a.shotsAfter);
    }
  }

  lemma ReadNothing(from: nat)
    ensures Raws([]) == [] && After([], from) == [] && SourceFirst(from, []) && Top(from, []) == from
  {
  }

  lemma AppendKeeps(w: World, e: LogEvent)
    requires Inv(w) && Enabled(w, Append(e))
    ensures Inv(Apply(w, Append(e)))
  {
    hide After, Raws, SourceFirst, Top, TopId, Hints;
    var c := w.conn;
    LiveLater(w.log, [e], c.first, w.published, c.live);
    assert (w.log + [e])[..c.covered] == w.log[..c.covered];
  }

  lemma StepKeeps(w: World, a: Action)
    requires Inv(w) && Enabled(w, a) && Orderly(w, a)
    ensures Inv(Apply(w, a))
  {
    hide Inv;
    match a
    case Append(e) => AppendKeeps(w, e);
    case PublishRaw => PublishRawKeeps(w);
    case PublishDerived(id, what) => OfferKeeps(w, Derived(id, what), w.published);
    case Backfill(_) => HistoryKeeps(w, a);
    case SendQueued => SendKeeps(w);
    case Receive => if w.conn.live[0].Raw? { ReceiveRaw(w); } else { ReceiveDerived(w); }
    case CatchUp(_) => HistoryKeeps(w, a);
    case CatchUpFails =>
  }

  lemma PublishRawKeeps(w: World)
    requires Inv(w) && Enabled(w, PublishRaw)
    ensures Inv(Apply(w, PublishRaw))
  {
    OfferKeeps(w, Raw(w.log[w.published]), w.published + 1);
  }

  // ------------------------------------------------------------ what every connection gives its client

  lemma {:induction false} RunKeeps(ws: seq<World>, actions: seq<Action>, n: nat)
    requires Run(ws, actions) && Inv(ws[0]) && n <= |actions|
    ensures Inv(ws[n])
  {
    hide Inv;
    if n > 0 {
      RunKeeps(ws, actions, n - 1);
      StepKeeps(ws[n - 1], actions[n - 1]);
    }
  }

  /** Over every orderly run, whatever the interleaving and however often the reader lags: the raw
      events sent are the log after the cursor, in order, each once, none skipped; no derived frame
      is sent before its source; and a reader that never lagged is sent every derived frame pushed
      since it subscribed. */
  lemma ConnectionServes(ws: seq<World>, actions: seq<Action>, log: seq<LogEvent>, published: nat, from: nat)
    requires Run(ws, actions) && ws[0] == Connected(log, published, from)
    requires Increasing(log) && published <= |log|
    ensures var w := ws[|actions|];
            && Served(w.log, from, w.conn.sent)
            && SourceFirst(from, w.conn.sent)
            && (!w.conn.everLagged && w.conn.live == [] ==> Hints(w.conn.sent) == w.conn.heard)
  {
    InvInit(log, published, from);
    RunKeeps(ws, actions, |actions|);
    FromIsFixed(ws, actions, |actions|);
    var w := ws[|actions|];
    var c := w.conn;
    if c.streaming {
      SentServed(w);
    }
    if c.live == [] { assert Hints(c.sent) + [] == Hints(c.sent); }
  }

  lemma SentServed(w: World)
    requires Inv(w) && w.conn.streaming
    ensures Served(w.log, w.conn.from, w.conn.sent) && SourceFirst(w.conn.from, w.conn.sent)
  {
    hide After, Raws, SourceFirst, Increasing, TopId, LiveFrom, Top, Hints;
    var c := w.conn;
    assert w.log == w.log[..c.covered] + w.log[c.covered..];
    AfterAppend(w.log[..c.covered], w.log[c.covered..], c.from);
    assert Served(w.log, c.from, c.sent + c.queue);
    ServedPrefix(w.log, c.from, c.sent + c.queue, |c.sent|);
    assert (c.sent + c.queue)[..|c.sent|] == c.sent;
  }

  /** Nothing is held back: once the connection has handled all it was given, the client has the
      whole log after its cursor. */
  lemma ConnectionCatchesUp(ws: seq<World>, actions: seq<Action>, log: seq<LogEvent>, published: nat, from: nat)
    requires Run(ws, actions) && ws[0] == Connected(log, published, from)
    requires Increasing(log) && published <= |log|
    requires var w := ws[|actions|];
             w.published == |w.log| && w.conn.streaming && w.conn.queue == [] && w.conn.live == [] && !w.conn.lagged
    ensures var w := ws[|actions|]; Raws(w.conn.sent) == After(w.log, from)
  {
    InvInit(log, published, from);
    RunKeeps(ws, actions, |actions|);
    FromIsFixed(ws, actions, |actions|);
    var w := ws[|actions|];
    assert w.conn.sent + [] == w.conn.sent;
    assert w.log[..|w.log|] == w.log;
  }

  lemma {:induction false} FromIsFixed(ws: seq<World>, actions: seq<Action>, n: nat)
    requires Run(ws, actions) && n <= |actions|
    ensures ws[n].conn.from == ws[0].conn.from
  {
    if n > 0 {
      FromIsFixed(ws, actions, n - 1);
    }
  }

  predicate Quiet(w: World) {
    w.published == |w.log| && w.conn.streaming && w.conn.queue == [] && w.conn.live == [] && !w.conn.lagged
  }

  /** What the gateway does next by itself, until there is nothing left to do. */
  function OwnStep(w: World): Action
    requires Inv(w) && !Quiet(w)
  {
    if w.published < |w.log| then PublishRaw
    else if !w.conn.streaming then Backfill([])
    else if w.conn.queue != [] then SendQueued
    else if w.conn.lagged then CatchUp([])
    else Receive
  }

  lemma OwnStepMoves(w: World)
    requires Inv(w) && !Quiet(w)
    ensures Enabled(w, OwnStep(w)) && Orderly(w, OwnStep(w))
    ensures var v := Apply(w, OwnStep(w));
            && Inv(v) && v.log == w.log && v.conn.from == w.conn.from && v.published >= w.published
            && (w.published < |w.log| ==> v.published > w.published)
            && (w.published == |w.log| ==> w.conn.streaming ==> v.conn.streaming)
            && (w.published == |w.log| && !w.conn.streaming ==> v.conn.streaming)
            && (w.published == |w.log| && w.conn.streaming ==>
                  && (w.conn.queue != [] ==> v.conn.lagged == w.conn.lagged && v.conn.live == w.conn.live && |v.conn.queue| < |w.conn.queue|)
                  && (w.conn.queue == [] && w.conn.lagged ==> !v.conn.lagged)
                  && (w.conn.queue == [] && !w.conn.lagged ==> !v.conn.lagged && |v.conn.live| < |w.conn.live|))
  {
    StepKeeps(w, OwnStep(w));
    hide Inv, History, Offer;
  }

  /** Main result: a connection can always catch up. However it has lagged, and whatever has been written meanwhile,
      the gateway's own steps lead to a point where the client has the whole log after its cursor. */
  lemma CanCatchUp(w: World) returns (ws: seq<World>, actions: seq<Action>)
    requires Inv(w)
    ensures Run(ws, actions) && ws[0] == w
    ensures var v := ws[|actions|]; Quiet(v) && v.log == w.log && Raws(v.conn.sent) == After(w.log, w.conn.from)
    decreases |w.log| - w.published, if w.conn.streaming then 0 else 1, if w.conn.lagged then 1 else 0, |w.conn.live|, |w.conn.queue|
  {
    if Quiet(w) {
      ws, actions := [w], [];
      assert w.conn.sent + [] == w.conn.sent;
      assert w.log[..|w.log|] == w.log;
    } else {
      hide Apply, Enabled, Orderly, OwnStep, StreamOk, LiveFrom;
      OwnStepMoves(w);
      var a := OwnStep(w);
      var ws', actions' := CanCatchUp(Apply(w, a));
      ws, actions := [w] + ws', [a] + actions';
    }
  }

  /** So from every state of an orderly run. */
  lemma ConnectionCanCatchUp(ws: seq<World>, actions: seq<Action>, log: seq<LogEvent>, published: nat, from: nat)
    returns (more: seq<World>, steps: seq<Action>)
    requires Run(ws, actions) && ws[0] == Connected(log, published, from)
    requires Increasing(log) && published <= |log|
    ensures Run(more, steps) && more[0] == ws[|actions|]
    ensures var v := more[|steps|]; v.log == ws[|actions|].log && Raws(v.conn.sent) == After(v.log, from)
  {
    hide After, Raws, Apply, Enabled, Orderly, Inv, Quiet;
    InvInit(log, published, from);
    RunKeeps(ws, actions, |actions|);
    FromIsFixed(ws, actions, |actions|);
    more, steps := CanCatchUp(ws[|actions|]);
  }

  // ------------------------------------------------------------ why the runs must be orderly

  predicate AnyRun(ws: seq<World>, actions: seq<Action>) {
    && |ws| == |actions| + 1
    && forall i | 0 <= i < |actions| :: Enabled(ws[i], actions[i]) && ws[i + 1] == Apply(ws[i], actions[i])
  }

  lemma AnyRunSnoc(ws: seq<World>, actions: seq<Action>, a: Action) returns (longer: seq<World>)
    requires AnyRun(ws, actions) && Enabled(ws[|actions|], a)
    ensures AnyRun(longer, actions + [a]) && |longer| == |ws| + 1 && longer[0] == ws[0]
    ensures longer[|ws|] == Apply(ws[|actions|], a)
  {
    longer := ws + [Apply(ws[|actions|], a)];
  }

  /** A derived frame pushed before its own event makes the filter drop the event: with a log of one
      event, the connection goes quiet without having sent it. */
  lemma DerivedAheadLosesItsEvent(body: string, what: string) returns (ws: seq<World>, actions: seq<Action>)
    ensures AnyRun(ws, actions) && ws[0] == Connected([], 0, 0)
    ensures var w := ws[|actions|];
            && w.log == [LogEvent(1, body)] && w.published == 1
            && w.conn.streaming && w.conn.queue == [] && w.conn.live == [] && !w.conn.lagged
            && Raws(w.conn.sent) == [] && After(w.log, 0) == [LogEvent(1, body)]
  {
    hide AnyRun;
    var e, d := LogEvent(1, body), Derived(1, what);
    ws, actions := [Connected([], 0, 0)], [];
    assert AnyRun(ws, actions) by { Start(ws[0]); }
    ws := AnyRunSnoc(ws, actions, Backfill([]));
    actions := actions + [Backfill([])];
    assert ws[1] == World([], 0, Conn(0, true, [], 0, [], false, [], [], false, 0, 0));
    ws := AnyRunSnoc(ws, actions, Append(e));
    actions := actions + [Append(e)];
    assert ws[2] == World([e], 0, Conn(0, true, [], 0, [], false, [], [], false, 0, 0));
    ws := AnyRunSnoc(ws, actions, PublishDerived(1, what));
    actions := actions + [PublishDerived(1, what)];
    assert ws[3] == World([e], 0, Conn(0, true, [], 0, [d], false, [], [d], false, 0, 0));
    ws := AnyRunSnoc(ws, actions, Receive);
    actions := actions + [Receive];
    assert ws[4] == World([e], 0, Conn(0, true, [], 1, [], false, [d], [d], false, 0, 0));
    ws := AnyRunSnoc(ws, actions, PublishRaw);
    actions := actions + [PublishRaw];
    assert ws[5] == World([e], 1, Conn(0, true, [], 1, [Raw(e)], false, [d], [d], false, 0, 0));
    ws := AnyRunSnoc(ws, actions, Receive);
    actions := actions + [Receive];
    RawsOne(d);
    assert [e][1..] == [];
  }

  lemma Start(w: World)
    ensures AnyRun([w], [])
  {
  }

  // ------------------------------------------------------------ when the read after a lag fails

  predicate Continues(w: World, actions: seq<Action>)
    decreases |actions|
  {
    actions != [] ==>
      Enabled(w, actions[0]) && Orderly(w, actions[0]) && Continues(Apply(w, actions[0]), actions[1..])
  }

  function End(w: World, actions: seq<Action>): World
    requires Continues(w, actions)
    decreases |actions|
  {
    if actions == [] then w else End(Apply(w, actions[0]), actions[1..])
  }

  predicate ServedAt(w: World) { Served(w.log, w.conn.from, w.conn.sent) }

  lemma {:induction false} InvServes(w: World, actions: seq<Action>)
    requires Inv(w) && w.conn.streaming && Continues(w, actions)
    ensures ServedAt(End(w, actions))
    decreases |actions|
  {
    hide Inv, Orderly, StreamOk;
    if actions == [] {
      SentServed(w);
    } else {
      StepKeeps(w, actions[0]);
      StillStreaming(w, actions[0]);
      InvServes(Apply(w, actions[0]), actions[1..]);
    }
  }

  lemma StillStreaming(w: World, a: Action)
    requires Enabled(w, a) && w.conn.streaming
    ensures Apply(w, a).conn.streaming
  {
  }

  /** Worlds that differ only in the record of what history has covered. */
  predicate Alike(v: World, w: World) {
    w == v.(conn := v.conn.(covered := w.conn.covered))
  }

  lemma {:induction false} AlikeEnds(v: World, w: World, actions: seq<Action>)
    requires Alike(v, w) && Continues(v, actions)
    ensures Continues(w, actions) && Alike(End(v, actions), End(w, actions))
    decreases |actions|
  {
    hide History;
    if actions != [] {
      AlikeEnds(Apply(v, actions[0]), Apply(w, actions[0]), actions[1..]);
    }
  }

  /** None of the events that the overflow dropped and history has not covered is one the client still wants. */
  predicate DroppedNothingWanted(w: World) {
    forall j | w.conn.covered <= j < w.conn.first && j < |w.log| :: w.log[j].num <= w.conn.from
  }

  lemma UnwantedCovered(log: seq<LogEvent>, covered: nat, first: nat, from: nat)
    requires Increasing(log) && covered < first <= |log|
    requires forall j | covered <= j < first :: log[j].num <= from
    ensures After(log[..first], from) == After(log[..covered], from)
    ensures Top(from, log[..first]) == Top(from, log[..covered])
  {
    var head, skipped := log[..covered], log[covered..first];
    assert log[..first] == head + skipped;
    AfterAppend(head, skipped, from);
    AfterNone(skipped, from);
    assert After(head, from) + [] == After(head, from);
    assert log[first - 1].num <= from;
    assert covered > 0 ==> log[covered - 1].num < log[first - 1].num;
  }

  /** Then history can be said to have covered them. */
  lemma NothingLost(w: World)
    requires Inv(w) && Enabled(w, CatchUpFails) && DroppedNothingWanted(w)
    ensures var v := Apply(w, CatchUpFails); Inv(v.(conn := v.conn.(covered := Max(v.conn.covered, v.conn.first))))
  {
    hide After, Raws, Hints, LiveFrom, SourceFirst, Increasing, Top, TopId;
    var c := w.conn;
    if c.first > c.covered {
      UnwantedCovered(w.log, c.covered, c.first, c.from);
    }
  }

  /** A connection that has skipped `log[j]`: what it was sent ends before it, what it will be handed starts after it. */
  predicate Skipped(w: World, j: nat) {
    var c := w.conn;
    && Increasing(w.log) && w.published <= |w.log|
    && c.streaming && c.queue == [] && !c.lagged
    && LiveFrom(w.log, c.first, w.published, c.live)
    && c.covered <= j < c.first <= w.published && w.log[j].num > c.from
    && Raws(c.sent) == After(w.log[..c.covered], c.from)
    && c.last <= w.log[c.first - 1].num
  }

  lemma FailedSkips(w: World, j: nat)
    requires Inv(w) && Enabled(w, CatchUpFails) && w.conn.covered <= j < w.conn.first && j < |w.log|
    requires w.log[j].num > w.conn.from
    ensures Skipped(Apply(w, CatchUpFails), j)
  {
    var c := w.conn;
    LiveBound(w.log, c.first, w.published, c.live);
    assert c.sent + [] == c.sent;
    assert w.log[c.first - 1].num >= w.log[j].num;
    assert c.covered > 0 ==> w.log[c.covered - 1].num < w.log[c.first - 1].num;
  }

  /** The next raw event goes out, and the client is not served. */
  lemma SkippedRaw(w: World, j: nat)
    requires Skipped(w, j) && w.conn.live != [] && w.conn.live[0].Raw?
    ensures Enabled(w, Receive) && !ServedAt(Apply(w, Receive))
  {
    var c := w.conn;
    var e := c.live[0].event;
    assert e == w.log[c.first] && e.num > w.log[c.first - 1].num;
    var after := Apply(w, Receive);
    assert after.conn.sent == c.sent + [Raw(e)];
    RawsAppend(c.sent, [Raw(e)]);
    RawsOne(Raw(e));
    var m := FirstWanted(w.log, c.covered, j, c.from);
    NextRead(w.log, m, c.from);
    var n := |Raws(c.sent)|;
    assert Raws(after.conn.sent)[n] == e;
    assert After(w.log, c.from)[n] == w.log[m];
  }

  lemma {:induction false} FirstWanted(log: seq<LogEvent>, covered: nat, j: nat, from: nat) returns (m: nat)
    requires covered <= j < |log| && log[j].num > from
    ensures covered <= m <= j && log[m].num > from && After(log[..m], from) == After(log[..covered], from)
    decreases j - covered
  {
    if log[covered].num > from {
      m := covered;
    } else {
      m := FirstWanted(log, covered + 1, j, from);
      assert log[..covered + 1] == log[..covered] + [log[covered]];
      AfterAppend(log[..covered], [log[covered]], from);
      AfterNone([log[covered]], from);
      assert After(log[..covered], from) + [] == After(log[..covered], from);
    }
  }

  lemma SkippedDerived(w: World, j: nat)
    requires Skipped(w, j) && w.conn.live != [] && w.conn.live[0].Derived?
    ensures Enabled(w, Receive) && Skipped(Apply(w, Receive), j)
  {
    hide After, Increasing, Raws;
    var c := w.conn;
    var d := c.live[0];
    RawsAppend(c.sent, [d]);
    RawsOne(d);
    assert Raws(c.sent) + [] == Raws(c.sent);
    assert Apply(w, Receive).conn == c.(live := c.live[1..], last := Max(c.last, d.id), sent := c.sent + [d]);
  }

  lemma SkippedPublish(w: World, j: nat)
    requires Skipped(w, j) && w.conn.live == [] && w.published < |w.log|
    ensures Enabled(w, PublishRaw)
    ensures Skipped(Apply(w, PublishRaw), j) && Apply(w, PublishRaw).conn.live == [Raw(w.log[w.published])]
  {
    assert [Raw(w.log[w.published])][1..] == [];
  }

  lemma SkippedAppend(w: World, j: nat, e: LogEvent)
    requires Skipped(w, j) && e.num > LastNum(w.log, |w.log|)
    ensures Enabled(w, Append(e)) && Skipped(Apply(w, Append(e)), j)
    ensures Apply(w, Append(e)).conn.live == w.conn.live && w.published < |Apply(w, Append(e)).log|
    ensures Apply(w, Append(e)).published == w.published
  {
    var c := w.conn;
    LiveLater(w.log, [e], c.first, w.published, c.live);
    assert (w.log + [e])[..c.covered] == w.log[..c.covered];
  }

  lemma {:induction false} SkippedShows(w: World, j: nat) returns (actions: seq<Action>)
    requires Skipped(w, j)
    ensures Continues(w, actions) && !ServedAt(End(w, actions))
    decreases |w.conn.live|
  {
    hide Skipped, Enabled, Apply, ServedAt;
    if w.conn.live != [] && w.conn.live[0].Raw? {
      SkippedRaw(w, j);
      actions := [Receive];
      assert actions[1..] == [];
    } else if w.conn.live != [] && w.conn.live[0].Derived? {
      SkippedDerived(w, j);
      Shorter(w);
      var more := SkippedShows(Apply(w, Receive), j);
      actions := [Receive] + more;
      assert actions[1..] == more;
    } else {
      NoSnapshot(w, j);
      actions := SkippedIdle(w, j);
    }
  }

  lemma Shorter(w: World)
    requires Enabled(w, Receive)
    ensures |Apply(w, Receive).conn.live| < |w.conn.live|
  {
  }

  lemma NoSnapshot(w: World, j: nat)
    requires Skipped(w, j)
    ensures w.conn.live != [] ==> !w.conn.live[0].Snapshot?
  {
  }

  lemma SkippedIdle(w: World, j: nat) returns (actions: seq<Action>)
    requires Skipped(w, j) && w.conn.live == []
    ensures Continues(w, actions) && !ServedAt(End(w, actions))
  {
    hide Skipped, Enabled, Apply, ServedAt;
    var e := LogEvent(LastNum(w.log, |w.log|) + 1, "");
    SkippedAppend(w, j, e);
    var v := Apply(w, Append(e));
    SkippedPublish(v, j);
    var u := Apply(v, PublishRaw);
    SkippedRaw(u, j);
    actions := [Append(e), PublishRaw, Receive];
    assert actions[1..] == [PublishRaw, Receive] && [PublishRaw, Receive][1..] == [Receive] && [Receive][1..] == [];
    assert Continues(u, [Receive]);
    assert Continues(v, [PublishRaw, Receive]);
  }

  /** Main result: when the read after a lag fails, the stream goes on all the same. The client is served
      along every further orderly run if and only if each event the overflow had dropped, and history had
      not covered, is one the client had asked to skip. */
  lemma FailedCatchUp(w: World)
    requires Inv(w) && Enabled(w, CatchUpFails)
    ensures var v := Apply(w, CatchUpFails);
            (forall actions | Continues(v, actions) :: ServedAt(End(v, actions))) <==> DroppedNothingWanted(w)
  {
    hide Inv, Continues, ServedAt, Skipped, StreamOk;
    var v := Apply(w, CatchUpFails);
    if DroppedNothingWanted(w) {
      NothingLost(w);
      var u := v.(conn := v.conn.(covered := Max(v.conn.covered, v.conn.first)));
      forall actions | Continues(v, actions)
        ensures ServedAt(End(v, actions))
      {
        AlikeEnds(v, u, actions);
        InvServes(u, actions);
        AlikeServed(End(v, actions), End(u, actions));
      }
    } else {
      var j :| w.conn.covered <= j < w.conn.first && j < |w.log| && w.log[j].num > w.conn.from;
      FailedSkips(w, j);
      var actions := SkippedShows(v, j);
    }
  }

  lemma AlikeServed(v: World, w: World)
    requires Alike(v, w) && ServedAt(w)
    ensures ServedAt(v)
  {
  }

  // ------------------------------------------------------------ two concrete runs

  function Numbered(k: nat): (log: seq<LogEvent>)
    ensures |log| == k && forall i | 0 <= i < k :: log[i] == LogEvent(i + 1, "")
  {
    seq(k, i requires 0 <= i < k => LogEvent(i + 1, ""))
  }

  /** A connection from the start that has read nothing of `k` live events. */
  function Filled(k: nat): World {
    World(Numbered(k), k, Conn(0, true, [], 0, FramesOf(Numbered(k)), false, [], [], false, 0, 0))
  }

  lemma FillStep(k: nat)
    requires k < CAPACITY
    ensures Enabled(Filled(k), Append(LogEvent(k + 1, "")))
    ensures Enabled(Apply(Filled(k), Append(LogEvent(k + 1, ""))), PublishRaw)
    ensures Apply(Apply(Filled(k), Append(LogEvent(k + 1, ""))), PublishRaw) == Filled(k + 1)
  {
    assert Numbered(k) + [LogEvent(k + 1, "")] == Numbered(k + 1);
    assert FramesOf(Numbered(k)) + [Raw(LogEvent(k + 1, ""))] == FramesOf(Numbered(k + 1));
    HintsStart();
  }

  lemma HintsStart()
    ensures forall e :: HintOf(Raw(e)) == []
  {
  }

  lemma {:induction false} FillUp(k: nat) returns (ws: seq<World>, actions: seq<Action>)
    requires k <= CAPACITY
    ensures AnyRun(ws, actions) && ws[0] == Connected([], 0, 0) && ws[|actions|] == Filled(k)
  {
    if k == 0 {
      var w := Connected([], 0, 0);
      Start(w);
      ws := AnyRunSnoc([w], [], Backfill([]));
      actions := [] + [Backfill([])];
      assert ws[1] == Filled(0);
    } else {
      ws, actions := FillUp(k - 1);
      FillStep(k - 1);
      ws := AnyRunSnoc(ws, actions, Append(LogEvent(k, "")));
      actions := actions + [Append(LogEvent(k, ""))];
      ws := AnyRunSnoc(ws, actions, PublishRaw);
      actions := actions + [PublishRaw];
    }
  }

  /** 257 events while the reader sleeps, a read that fails, one frame: the client is sent event 2 and never
      event 1. */
  lemma FailedCatchUpLosesAnEvent() returns (ws: seq<World>, actions: seq<Action>)
    ensures AnyRun(ws, actions) && ws[0] == Connected([], 0, 0)
    ensures var w := ws[|actions|];
            w.conn.sent == [Raw(LogEvent(2, ""))] && LogEvent(1, "") in w.log && |w.log| == 257 && !ServedAt(w)
  {
    hide AnyRun, Filled;
    ws, actions := FillUp(CAPACITY);
    var e := LogEvent(CAPACITY + 1, "");
    var w, v, u, t := Overflow(e);
    ws := AnyRunSnoc(ws, actions, Append(e));
    actions := actions + [Append(e)];
    ws := AnyRunSnoc(ws, actions, PublishRaw);
    actions := actions + [PublishRaw];
    ws := AnyRunSnoc(ws, actions, CatchUpFails);
    actions := actions + [CatchUpFails];
    ws := AnyRunSnoc(ws, actions, Receive);
    actions := actions + [Receive];
    RawsOne(Raw(LogEvent(2, "")));
    assert Raws(t.conn.sent)[0] != After(t.log, t.conn.from)[0];
  }

  lemma Overflow(e: LogEvent) returns (w: World, v: World, u: World, t: World)
    requires e == LogEvent(CAPACITY + 1, "")
    ensures Enabled(Filled(CAPACITY), Append(e)) && w == Apply(Filled(CAPACITY), Append(e))
    ensures Enabled(w, PublishRaw) && v == Apply(w, PublishRaw)
    ensures Enabled(v, CatchUpFails) && u == Apply(v, CatchUpFails)
    ensures Enabled(u, Receive) && t == Apply(u, Receive)
    ensures t.conn.sent == [Raw(LogEvent(2, ""))] && LogEvent(1, "") in t.log && |t.log| == 257
    ensures After(t.log, t.conn.from) != [] && After(t.log, t.conn.from)[0] == LogEvent(1, "")
  {
    var live := FramesOf(Numbered(CAPACITY));
    assert live[1..][0] == Raw(LogEvent(2, ""));
    w := Apply(Filled(CAPACITY), Append(e));
    v := Apply(w, PublishRaw);
    u := Apply(v, CatchUpFails);
    t := Apply(u, Receive);
    assert t.log[0] == LogEvent(1, "");
  }

  /** A client that resumes from 2 while event 1 is still on its way to the channel is sent a frame numbered 1. */
  lemma DerivedBehindTheCursor(what: string) returns (ws: seq<World>, actions: seq<Action>)
    ensures Run(ws, actions) && ws[0] == Connected(Numbered(2), 0, 2)
    ensures ws[|actions|].log == Numbered(2) && ws[|actions|].conn.sent == [Derived(1, what)]
  {
    var log, d := Numbered(2), Derived(1, what);
    actions := [Backfill([]), PublishRaw, Receive, PublishDerived(1, what), Receive];
    assert After(log, 2) == [] by { AfterNone(log, 2); }
    var w0 := Connected(log, 0, 2);
    var w1 := Apply(w0, Backfill([]));
    assert w1 == World(log, 0, Conn(2, true, [], 2, [], false, [], [], false, 2, 0));
    var w2 := Apply(w1, PublishRaw);
    assert w2 == World(log, 1, Conn(2, true, [], 2, [Raw(log[0])], false, [], [], false, 2, 0));
    var w3 := Apply(w2, Receive);
    assert w3 == World(log, 1, Conn(2, true, [], 2, [], false, [], [], false, 2, 1));
    var w4 := Apply(w3, PublishDerived(1, what));
    assert w4 == World(log, 1, Conn(2, true, [], 2, [d], false, [], [d], false, 2, 1));
    var w5 := Apply(w4, Receive);
    assert w5.conn.sent == [d];
    ws := [w0, w1, w2, w3, w4, w5];
  }

  lemma NextRead(log: seq<LogEvent>, covered: nat, from: nat)
    requires Increasing(log) && covered < |log| && log[covered].num > from
    ensures After(log[..covered], from) + [log[covered]] <= After(log, from)
    ensures log[covered].num > Top(from, log[..covered])
  {
    CoverNext(log, covered, from);
    assert log == log[..covered + 1] + log[covered + 1..];
    AfterAppend(log[..covered + 1], log[covered + 1..], from);
  }
}
