/** Gateway and clients together: every connection is a run of the gateway's machine that started
    at the client's cursor, was cut after any number of frames, and left the rest undelivered. */
module EventSystem {
  import opened EventLog
  import EventServer
  import opened EventClients

  datatype Link = Link(ws: seq<EventServer.World>, actions: seq<EventServer.Action>,
                       log: seq<LogEvent>, published: nat, received: nat)

  /** The link is an orderly run from `cursor` that ended no later than `final`. */
  predicate LinkFrom(cursor: nat, final: seq<LogEvent>, link: Link) {
    && EventServer.Run(link.ws, link.actions)
    && link.ws[0] == EventServer.Connected(link.log, link.published, cursor)
    && Increasing(link.log) && link.published <= |link.log|
    && link.ws[|link.actions|].log <= final
    && link.received <= |link.ws[|link.actions|].conn.sent|
  }

  /** What got through before the cut. */
  function Delivered(link: Link): seq<StreamFrame>
    requires |link.ws| == |link.actions| + 1
    requires link.received <= |link.ws[|link.actions|].conn.sent|
  {
    link.ws[|link.actions|].conn.sent[..link.received]
  }

  lemma LinkServes(cursor: nat, final: seq<LogEvent>, link: Link)
    requires LinkFrom(cursor, final, link)
    ensures Served(final, cursor, Delivered(link)) && SourceFirst(cursor, Delivered(link))
  {
    hide EventServer.Apply, EventServer.Enabled, EventServer.Orderly;
    assert |link.ws| == |link.actions| + 1;
    var w := link.ws[|link.actions|];
    EventServer.ConnectionServes(link.ws, link.actions, link.log, link.published, cursor);
    ServedPrefix(w.log, cursor, w.conn.sent, link.received);
    assert final == w.log + final[|w.log|..];
    ServedLater(w.log, final[|w.log|..], cursor, Delivered(link));
  }

  predicate WebLinks(s: WebState, final: seq<LogEvent>, links: seq<Link>)
    decreases |links|
  {
    links != [] ==> LinkFrom(s.cursor, final, links[0])
                    && WebLinks(WebFrames(s, Delivered(links[0])), final, links[1..])
  }

  predicate TermLinks(s: TermState, final: seq<LogEvent>, links: seq<Link>)
    decreases |links|
  {
    links != [] ==> LinkFrom(s.cursor, final, links[0])
                    && TermLinks(TermFrames(s, Delivered(links[0])), final, links[1..])
  }

  function Deliveries(links: seq<Link>): seq<seq<StreamFrame>>
    requires forall i | 0 <= i < |links| ::
               |links[i].ws| == |links[i].actions| + 1
               && links[i].received <= |links[i].ws[|links[i].actions|].conn.sent|
  {
    seq(|links|, i requires 0 <= i < |links| => Delivered(links[i]))
  }

  lemma {:induction false} WebLinksDeliver(s: WebState, final: seq<LogEvent>, links: seq<Link>)
    requires WebLinks(s, final, links)
    ensures forall i | 0 <= i < |links| ::
              |links[i].ws| == |links[i].actions| + 1
              && links[i].received <= |links[i].ws[|links[i].actions|].conn.sent|
    ensures WebServed(final, s, Deliveries(links))
    decreases |links|
  {
    hide EventServer.Apply, Served, WebFrames;
    if links != [] {
      LinkServes(s.cursor, final, links[0]);
      WebLinksDeliver(WebFrames(s, Delivered(links[0])), final, links[1..]);
      assert forall i | 1 <= i < |links| :: links[i] == links[1..][i - 1];
      assert Deliveries(links)[1..] == Deliveries(links[1..]);
    }
  }

  /** End to end for the page: whatever the gateway's interleavings, lags and the cuts, what the page
      shows is a gap-free, duplicate-free prefix of the log. */
  lemma WebEndToEnd(s: WebState, final: seq<LogEvent>, links: seq<Link>)
    requires Increasing(final) && WebOk(final, s) && WebLinks(s, final, links)
    ensures forall i | 0 <= i < |links| ::
              |links[i].ws| == |links[i].actions| + 1
              && links[i].received <= |links[i].ws[|links[i].actions|].conn.sent|
    ensures WebSession(s, Deliveries(links)).events <= final
    ensures WebSession(s, Deliveries(links)).cursor >= s.cursor
  {
    WebLinksDeliver(s, final, links);
    WebExactlyOnce(final, s, Deliveries(links));
  }

  lemma {:induction false} TermLinksDeliver(s: TermState, final: seq<LogEvent>, links: seq<Link>)
    requires TermLinks(s, final, links)
    ensures forall i | 0 <= i < |links| ::
              |links[i].ws| == |links[i].actions| + 1
              && links[i].received <= |links[i].ws[|links[i].actions|].conn.sent|
    ensures TermServed(final, s, Deliveries(links))
    decreases |links|
  {
    hide EventServer.Apply, Served, SourceFirst, TermFrames;
    if links != [] {
      LinkServes(s.cursor, final, links[0]);
      TermLinksDeliver(TermFrames(s, Delivered(links[0])), final, links[1..]);
      assert forall i | 1 <= i < |links| :: links[i] == links[1..][i - 1];
      assert Deliveries(links)[1..] == Deliveries(links[1..]);
    }
  }

  /** End to end for the terminal: nothing between its first cursor and its present one is missing. */
  lemma TermEndToEnd(start: nat, s: TermState, final: seq<LogEvent>, links: seq<Link>)
    requires Increasing(final) && NoHole(final, start, s) && TermLinks(s, final, links)
    ensures forall i | 0 <= i < |links| ::
              |links[i].ws| == |links[i].actions| + 1
              && links[i].received <= |links[i].ws[|links[i].actions|].conn.sent|
    ensures NoHole(final, start, TermSession(s, Deliveries(links)))
  {
    TermLinksDeliver(s, final, links);
    TermNoHoles(final, start, s, Deliveries(links));
  }

  /** There is a connection that carries everything a log has after a cursor. */
  lemma FullLink(cursor: nat, final: seq<LogEvent>) returns (link: Link)
    requires Increasing(final)
    ensures LinkFrom(cursor, final, link) && Raws(Delivered(link)) == After(final, cursor)
  {
    var w := EventServer.Connected(final, |final|, cursor);
    EventServer.InvInit(final, |final|, cursor);
    hide EventServer.Apply, EventServer.Enabled, EventServer.Orderly, EventServer.Inv, EventServer.Quiet;
    var ws, actions := EventServer.CanCatchUp(w);
    link := Link(ws, actions, final, |final|, |ws[|actions|].conn.sent|);
    assert Delivered(link) == ws[|actions|].conn.sent;
  }

  /** Main result: the page can always be completed. From wherever its cache stands, one more connection can give it
      the rest of the log. */
  lemma PageCanBeComplete(s: WebState, final: seq<LogEvent>) returns (links: seq<Link>)
    requires Increasing(final) && WebOk(final, s)
    ensures WebLinks(s, final, links) && |links| == 1
    ensures |links[0].ws| == |links[0].actions| + 1 && links[0].received <= |links[0].ws[|links[0].actions|].conn.sent|
    ensures WebSession(s, [Delivered(links[0])]).events == final
  {
    hide EventServer.Run;
    var link := FullLink(s.cursor, final);
    links := [link];
    LinkHas(s.cursor, final, link);
    assert WebLinks(WebFrames(s, Delivered(link)), final, links[1..]);
    LinkServes(s.cursor, final, link);
    WebConnection(final, s, Delivered(link));
    TailAfter(final, |s.events|);
    assert s.events == final[..|s.events|];
    assert [Delivered(link)][1..] == [];
    assert s.events + final[|s.events|..] == final;
  }

  lemma LinkHas(cursor: nat, final: seq<LogEvent>, link: Link)
    requires LinkFrom(cursor, final, link)
    ensures |link.ws| == |link.actions| + 1 && link.received <= |link.ws[|link.actions|].conn.sent|
  {
  }

  /** And so can the terminal be given all that there is after where it started. */
  lemma TerminalCanHaveAll(start: nat, final: seq<LogEvent>) returns (links: seq<Link>)
    requires Increasing(final)
    ensures NoHole(final, start, TermState([], start)) && TermLinks(TermState([], start), final, links) && |links| == 1
    ensures |links[0].ws| == |links[0].actions| + 1 && links[0].received <= |links[0].ws[|links[0].actions|].conn.sent|
    ensures Raws(TermSession(TermState([], start), [Delivered(links[0])]).got) == After(final, start)
  {
    hide EventServer.Run;
    var link := FullLink(start, final);
    links := [link];
    LinkHas(start, final, link);
    assert TermLinks(TermFrames(TermState([], start), Delivered(link)), final, links[1..]);
    TermHasAll(TermState([], start), [Delivered(link)]);
    assert [Delivered(link)][1..] == [];
    assert [] + Given([Delivered(link)]) == Delivered(link);
  }

  /** A terminal that starts at 2 is given a frame numbered 1, and the next connection carries event 2 again. */
  lemma TerminalReplays(what: string) returns (link: Link, s: TermState)
    ensures LinkFrom(2, EventServer.Numbered(2), link) && Delivered(link) == [Derived(1, what)]
    ensures s == TermFrames(TermState([], 2), Delivered(link)) && s.cursor == 1
    ensures After(EventServer.Numbered(2), s.cursor) == [LogEvent(2, "")]
  {
    var ws, actions := EventServer.DerivedBehindTheCursor(what);
    var log := EventServer.Numbered(2);
    link := Link(ws, actions, log, 0, 1);
    TermClosed(TermState([], 2), Delivered(link));
    s := TermFrames(TermState([], 2), Delivered(link));
    assert log == [LogEvent(1, ""), LogEvent(2, "")];
    assert log[1..] == [LogEvent(2, "")] && [LogEvent(2, "")][1..] == [];
  }
}
