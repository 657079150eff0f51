/** The session log as the event stream sees it, and the frames made from it. */
module EventLog {

  /** A durable log entry. Its number is also the resume cursor. */
  datatype LogEvent = LogEvent(num: nat, body: string)

  /** A frame on a connection: a log event itself, a live hint derived from one, or the snapshot
      of nested calls sent after a backfill. */
  datatype StreamFrame = Raw(event: LogEvent) | Derived(id: nat, what: string) | Snapshot(at: nat, shot: string)

  function Id(f: StreamFrame): nat {
    match f
    case Raw(e) => e.num
    case Derived(id, _) => id
    case Snapshot(id, _) => id
  }

  predicate Increasing(log: seq<LogEvent>) {
    && (forall i | 0 <= i < |log| :: log[i].num > 0)
    && (forall i, j | 0 <= i < j < |log| :: log[i].num < log[j].num)
  }

  /** The events after a cursor: what a backfill reads. */
  function After(log: seq<LogEvent>, cursor: nat): seq<LogEvent> {
    if log == [] then []
    else (if log[0].num > cursor then [log[0]] else []) + After(log[1..], cursor)
  }

  function RawOf(f: StreamFrame): seq<LogEvent> { if f.Raw? then [f.event] else [] }

  function Raws(frames: seq<StreamFrame>): seq<LogEvent> {
    if frames == [] then [] else RawOf(frames[0]) + Raws(frames[1..])
  }

  function HintOf(f: StreamFrame): seq<StreamFrame> { if f.Derived? then [f] else [] }

  function Hints(frames: seq<StreamFrame>): seq<StreamFrame> {
    if frames == [] then [] else HintOf(frames[0]) + Hints(frames[1..])
  }

  function FramesOf(events: seq<LogEvent>): (r: seq<StreamFrame>)
    ensures |r| == |events| && forall i | 0 <= i < |r| :: r[i] == Raw(events[i])
  {
    seq(|events|, i requires 0 <= i < |events| => Raw(events[i]))
  }

  function Max(a: nat, b: nat): nat { if a < b then b else a }

  /** The number of the last event, but at least `cursor`. */
  function Top(cursor: nat, events: seq<LogEvent>): (top: nat)
    ensures top >= cursor
  {
    if events == [] then cursor else Max(cursor, events[|events| - 1].num)
  }

  /** No derived frame comes before the event it is derived from. */
  predicate SourceFirst(cursor: nat, frames: seq<StreamFrame>) {
    forall i | 0 <= i < |frames| && !frames[i].Raw? :: Id(frames[i]) <= Top(cursor, Raws(frames[..i]))
  }

  /** What a client may rely on: the log after its cursor, in order, gapless, once. */
  predicate Served(log: seq<LogEvent>, cursor: nat, frames: seq<StreamFrame>) {
    Raws(frames) <= After(log, cursor)
  }

  // ------------------------------------------------------------ lemmas

  lemma {:induction false} AfterAppend(a: seq<LogEvent>, b: seq<LogEvent>, cursor: nat)
    ensures After(a + b, cursor) == After(a, cursor) + After(b, cursor)
  {
    if a == [] {
      assert a + b == b;
    } else {
      assert (a + b)[1..] == a[1..] + b;
      AfterAppend(a[1..], b, cursor);
    }
  }

  lemma {:induction false} RawsAppend(a: seq<StreamFrame>, b: seq<StreamFrame>)
    ensures Raws(a + b) == Raws(a) + Raws(b)
  {
    hide RawOf;
    if a == [] {
      assert a + b == b;
    } else {
      assert (a + b)[1..] == a[1..] + b;
      RawsAppend(a[1..], b);
      assert RawOf(a[0]) + (Raws(a[1..]) + Raws(b)) == (RawOf(a[0]) + Raws(a[1..])) + Raws(b);
    }
  }

  lemma {:induction false} HintsAppend(a: seq<StreamFrame>, b: seq<StreamFrame>)
    ensures Hints(a + b) == Hints(a) + Hints(b)
  {
    hide HintOf;
    if a == [] {
      assert a + b == b;
    } else {
      assert (a + b)[1..] == a[1..] + b;
      HintsAppend(a[1..], b);
      assert HintOf(a[0]) + (Hints(a[1..]) + Hints(b)) == (HintOf(a[0]) + Hints(a[1..])) + Hints(b);
    }
  }

  lemma {:induction false} RawsOfFrames(events: seq<LogEvent>)
    ensures Raws(FramesOf(events)) == events && Hints(FramesOf(events)) == []
  {
    if events != [] {
      assert FramesOf(events)[1..] == FramesOf(events[1..]);
      RawsOfFrames(events[1..]);
    }
  }

  lemma IncreasingTail(log: seq<LogEvent>)
    requires Increasing(log) && log != []
    ensures Increasing(log[1..])
    ensures forall i | 0 <= i < |log| :: log[0].num <= log[i].num
  {
  }

  /** In an increasing log the events after a cursor are a tail of it. */
  lemma {:induction false} AfterIsTail(log: seq<LogEvent>, cursor: nat) returns (k: nat)
    requires Increasing(log)
    ensures k <= |log| && After(log, cursor) == log[k..]
    ensures forall i | 0 <= i < k :: log[i].num <= cursor
    ensures forall i | k <= i < |log| :: log[i].num > cursor
  {
    hide Increasing;
    if log == [] {
      k := 0;
    } else {
      IncreasingTail(log);
      if log[0].num > cursor {
        k := 0;
        AfterAll(log, cursor);
        assert log[0..] == log;
      } else {
        var rest := log[1..];
        var j := AfterIsTail(rest, cursor);
        k := j + 1;
        assert rest[j..] == log[k..];
        forall i | 0 <= i < |log|
          ensures i < k ==> log[i].num <= cursor
          ensures k <= i ==> log[i].num > cursor
        {
          if i > 0 { assert log[i] == rest[i - 1]; }
        }
      }
    }
  }

  lemma {:induction false} AfterAll(log: seq<LogEvent>, cursor: nat)
    requires forall i | 0 <= i < |log| :: log[i].num > cursor
    ensures After(log, cursor) == log
  {
    if log != [] {
      AfterAll(log[1..], cursor);
    }
  }

  lemma {:induction false} AfterNone(log: seq<LogEvent>, cursor: nat)
    requires forall i | 0 <= i < |log| :: log[i].num <= cursor
    ensures After(log, cursor) == []
  {
    if log != [] {
      AfterNone(log[1..], cursor);
    }
  }

  /** Reading on from the last event read, or from any cursor that has reached it, continues the
      reading. */
  lemma AfterContinues(log: seq<LogEvent>, k: nat, cursor: nat)
    requires Increasing(log) && k <= |log|
    ensures After(log, cursor) == After(log[..k], cursor) + After(log, Top(cursor, log[..k]))
  {
    hide After, Increasing, Top;
    var head, tail := log[..k], log[k..];
    var top := Top(cursor, head);
    assert log == head + tail;
    AfterAppend(head, tail, cursor);
    AfterAppend(head, tail, top);
    BelowTop(log, k, cursor);
    AfterNone(head, top);
    if top != cursor {
      AfterAll(tail, cursor);
      AfterAll(tail, top);
    }
  }

  lemma BelowTop(log: seq<LogEvent>, k: nat, cursor: nat)
    requires Increasing(log) && k <= |log|
    ensures forall i | 0 <= i < k :: log[..k][i].num <= Top(cursor, log[..k])
    ensures Top(cursor, log[..k]) != cursor ==> forall i | 0 <= i < |log| - k :: log[k..][i].num > Top(cursor, log[..k])
  {
  }

  /** What was served from a log was served from every later log. */
  lemma ServedLater(log: seq<LogEvent>, more: seq<LogEvent>, cursor: nat, frames: seq<StreamFrame>)
    requires Served(log, cursor, frames)
    ensures Served(log + more, cursor, frames)
  {
    AfterAppend(log, more, cursor);
  }

  /** A connection cut short was still served. */
  lemma ServedPrefix(log: seq<LogEvent>, cursor: nat, frames: seq<StreamFrame>, n: nat)
    requires n <= |frames| && Served(log, cursor, frames)
    ensures Served(log, cursor, frames[..n])
    ensures SourceFirst(cursor, frames) ==> SourceFirst(cursor, frames[..n])
  {
    assert frames == frames[..n] + frames[n..];
    RawsAppend(frames[..n], frames[n..]);
    forall i | 0 <= i < n
      ensures frames[..n][..i] == frames[..i]
    {
    }
  }

  /** After a prefix of the reading from `cursor`, exactly the events up to its top are read. */
  lemma PrefixReach(log: seq<LogEvent>, cursor: nat, got: seq<LogEvent>, e: LogEvent)
    requires Increasing(log) && got <= After(log, cursor) && e in log
    ensures cursor < e.num <= Top(cursor, got) <==> e in got
  {
    hide After;
    var k := AfterIsTail(log, cursor);
    var j :| 0 <= j < |log| && log[j] == e;
    PrefixIsWindow(log, k, got);
    if got != [] {
      var last := k + |got| - 1;
      assert got[|got| - 1] == log[last];
      if cursor < e.num <= log[last].num {
        assert k <= j <= last;
        assert got[j - k] == e;
      }
      if e in got {
        var i :| 0 <= i < |got| && got[i] == e;
        assert log[k + i] == e;
      }
    }
  }

  lemma PrefixIsWindow(log: seq<LogEvent>, k: nat, got: seq<LogEvent>)
    requires k <= |log| && got <= log[k..]
    ensures k + |got| <= |log| && forall i | 0 <= i < |got| :: got[i] == log[k + i]
  {
    forall i | 0 <= i < |got|
      ensures got[i] == log[k + i]
    {
      assert log[k..][i] == log[k + i];
    }
  }
}
