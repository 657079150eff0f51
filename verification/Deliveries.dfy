/** The delivery log (crates/komo-gateway/src/deliveries.rs) over its rows
    (crates/komo-store/src/repos/deliveries.rs): record, send, settle, and send again what is not settled.

    One mutex makes the operations one after another, so any use of the log is a sequence of them. What
    the outside does is a plan: whether the database answers, what the platform says, and where the
    process dies. A dead process does nothing more; a restart finds the rows as they were. */
module Deliveries {
  import opened Text

  type Id = nat

  datatype Peer = Peer(platform: string, chat: string, thread: Option<string>)

  datatype Outbound =
    | RunFinished(session: string, run: string, text: string)
    | NeedsAttention(session: string, run: string, text: string)
    | RunAbsorbed(session: string, run: string, text: string)
    | Plain(text: string)

  datatype DeliveryState = Pending | Deferred | Sent

  datatype Row = Row(peer: Peer, outbound: Outbound, key: Option<string>, state: DeliveryState, attempts: nat,
                     error: Option<string>)

  type Rows = map<Id, Row>

  datatype Delivery = Delivery(id: Id, state: DeliveryState)
  datatype DeliverError = Persist | Refused(error: string)

  // ------------------------------------------------------------ one row per notification

  function NotificationKey(o: Outbound): Option<string> {
    match o
    case RunFinished(session, run, _) => Some("finished:" + session + ":" + run)
    case NeedsAttention(session, run, _) => Some("attention:" + session + ":" + run)
    case RunAbsorbed(session, run, _) => Some("absorbed:" + session + ":" + run)
    case Plain(_) => None
  }

  /** Two messages about the same thing: the same kind of news of the same run of the same session. */
  predicate SameMatter(a: Outbound, b: Outbound) {
    && !a.Plain? && !b.Plain?
    && (a.RunFinished? <==> b.RunFinished?) && (a.NeedsAttention? <==> b.NeedsAttention?)
    && a.session == b.session && a.run == b.run
  }

  /** Identifiers are UUIDs or numbers. */
  predicate PlainIds(o: Outbound) {
    !o.Plain? ==> ':' !in o.session && ':' !in o.run
  }

  lemma KeyPieces(word: string, session: string, run: string)
    requires ':' !in word && ':' !in session && ':' !in run
    ensures Split(word + ":" + session + ":" + run, ':') == [word, session, run]
  {
    hide Split;
    SplitFirst(session, run, ':');
    SplitFirst(word, session + ":" + run, ':');
    assert word + ":" + session + ":" + run == word + ":" + (session + ":" + run);
    Whole(run);
    assert [word] + ([session] + [run]) == [word, session, run];
  }

  lemma Whole(s: string)
    requires ':' !in s
    ensures Split(s, ':') == [s]
  {
  }

  function Kind(o: Outbound): string {
    match o
    case RunFinished(_, _, _) => "finished"
    case NeedsAttention(_, _, _) => "attention"
    case RunAbsorbed(_, _, _) => "absorbed"
    case Plain(_) => ""
  }

  lemma KeyIs(o: Outbound)
    requires PlainIds(o) && !o.Plain?
    ensures NotificationKey(o).Some? && Split(NotificationKey(o).value, ':') == [Kind(o), o.session, o.run]
  {
    hide Split;
    KeyPieces(Kind(o), o.session, o.run);
    match o {
      case RunFinished(session, run, _) => assert "finished:" == "finished" + ":";
      case NeedsAttention(session, run, _) => assert "attention:" == "attention" + ":";
      case RunAbsorbed(session, run, _) => assert "absorbed:" == "absorbed" + ":";
    }
  }

  /** Main result: two messages have the same key if and only if they are about the same thing; only a plain
      message has none. */
  lemma KeyTellsApart(a: Outbound, b: Outbound)
    requires PlainIds(a) && PlainIds(b)
    ensures NotificationKey(a).None? <==> a.Plain?
    ensures NotificationKey(a).Some? && NotificationKey(a) == NotificationKey(b) <==> SameMatter(a, b)
  {
    hide Split;
    if !a.Plain? && !b.Plain? {
      KeyIs(a);
      KeyIs(b);
      assert Kind(a) == Kind(b) ==> (a.RunFinished? <==> b.RunFinished?) && (a.NeedsAttention? <==> b.NeedsAttention?) by {
        assert "finished"[0] == 'f' && "attention"[1] == 't' && "absorbed"[1] == 'b';
      }
      if NotificationKey(a) == NotificationKey(b) {
        assert [Kind(a), a.session, a.run][0] == [Kind(b), b.session, b.run][0];
        assert [Kind(a), a.session, a.run][1] == [Kind(b), b.session, b.run][1];
        assert [Kind(a), a.session, a.run][2] == [Kind(b), b.session, b.run][2];
      }
    }
  }

  /** Rows from before there were keys are recognised by the run they are about. */
  predicate LegacyMatches(row: Row, o: Outbound) {
    && row.key.None?
    && ((row.outbound.RunFinished? && o.RunFinished?) || (row.outbound.NeedsAttention? && o.NeedsAttention?))
    && row.outbound.session == o.session && row.outbound.run == o.run
  }

  /** They are told apart as by a key, but a run that was absorbed had no row then. */
  lemma LegacyExactly(row: Row, o: Outbound)
    ensures LegacyMatches(row, o) <==> row.key.None? && SameMatter(row.outbound, o) && !o.RunAbsorbed?
  {
  }

  predicate SameNotification(row: Row, peer: Peer, o: Outbound, key: string) {
    row.peer == peer && (row.key == Some(key) || LegacyMatches(row, o))
  }

  /** No two rows carry the same key to the same place. */
  predicate OnePerKey(rows: Rows) {
    forall a, b :: a in rows && b in rows && rows[a].key.Some? && rows[a].key == rows[b].key && rows[a].peer == rows[b].peer
      ==> a == b
  }

  // ------------------------------------------------------------ what happened

  function Count(m: map<Id, nat>, id: Id): nat { if id in m then m[id] else 0 }

  /** `sent`: how often a platform took this delivery. `unsaved`: how often that was not written down. */
  datatype History = History(sent: map<Id, nat>, unsaved: map<Id, nat>)

  /** A row that says sent was taken once more than it was left unsaved; any other row, only as often. */
  ghost predicate Accounted(rows: Rows, h: History) {
    forall id: Id :: Count(h.sent, id) == Count(h.unsaved, id) + if id in rows && rows[id].state.Sent? then 1 else 0
  }

  /** On an outside where nothing goes wrong a first message about a run is news, and the next is not. */
  lemma NewsAndOldNews(peer: Peer, text: string)
    ensures Fine(Turn(true, Takes, false))
    ensures var o := RunFinished("s", "r", text);
            && NewsTo(map[], peer, o) && ToldBefore(Row(peer, o, NotificationKey(o), Sent, 1, None), peer, o)
            && NewsTo(map[1 := Row(peer, o, NotificationKey(o), Sent, 1, None)], peer, RunFinished("s", "q", text))
  {
    hide NotificationKey;
  }

  /** A log that was never used: nothing was taken, and nothing is open. */
  lemma NothingYet(id: Id)
    ensures OnePerKey(map[]) && Accounted(map[], History(map[], map[])) && Count(map[], id) == 0
  {
  }

  /** Rows stay; a row that says sent stays exactly as it is, and is never sent again. */
  ghost predicate Settles(before: Rows, h: History, after: Rows, h': History) {
    forall id: Id :: id in before ==>
      && id in after
      && after[id].peer == before[id].peer && after[id].outbound == before[id].outbound && after[id].key == before[id].key
      && (before[id].state.Sent? ==> after[id] == before[id] && Count(h'.sent, id) == Count(h.sent, id))
  }

  // ------------------------------------------------------------ the outside

  datatype Sending = Unavailable | Takes | Defers(reason: string) | Refuses(error: string)

  datatype Turn = Turn(answers: bool, sending: Sending, dies: bool)

  predicate Fine(t: Turn) { t.answers && t.sending.Takes? && !t.dies }

  class DeliveryLog {
    var rows: Rows
    var alive: bool
    var clock: nat
    const plan: nat -> Turn
    ghost var history: History

    ghost predicate Valid()
      reads this`rows, this`history
    {
      OnePerKey(rows) && Accounted(rows, history)
    }

    /** From now on the process lives, the database answers and every platform takes what it is sent. */
    ghost predicate Healthy()
      reads this`alive, this`clock
    {
      alive && forall i :: clock <= i ==> Fine(plan(i))
    }

    /** A process starts: the rows are whatever earlier ones left. */
    constructor (rows: Rows, plan: nat -> Turn, ghost history: History)
      requires OnePerKey(rows) && Accounted(rows, history)
      ensures Valid() && this.rows == rows && this.history == history
    {
      this.rows, this.plan, alive, clock, this.history := rows, plan, true, 0, history;
    }

    method Restart()
      modifies this`alive
      ensures alive
    {
      alive := true;
    }

    method Next() returns (t: Turn)
      modifies this`alive, this`clock
      ensures t == plan(old(clock)) && clock == old(clock) + 1 && (alive <==> old(alive) && !t.dies)
      ensures old(Healthy()) ==> Healthy() && Fine(t)
    {
      t := plan(clock);
      clock := clock + 1;
      if t.dies {
        alive := false;
      }
    }

    /** One database operation: does it happen? */
    method Reach() returns (ok: bool)
      modifies this`alive, this`clock
      ensures ok <==> old(alive) && plan(old(clock)).answers && !plan(old(clock)).dies
      ensures old(Healthy()) ==> Healthy() && ok
    {
      var t := Next();
      ok := alive && t.answers;
    }

    // ---------------------------------------------------------- rows

    method FindNotification(peer: Peer, o: Outbound, key: string) returns (found: Option<Id>)
      ensures found.Some? ==> found.value in rows && SameNotification(rows[found.value], peer, o, key)
      ensures found.None? ==> forall id :: id in rows ==> !SameNotification(rows[id], peer, o, key)
    {
      var todo := rows.Keys;
      while todo != {}
        invariant todo <= rows.Keys
        invariant forall id :: id in rows && id !in todo ==> !SameNotification(rows[id], peer, o, key)
        decreases todo
      {
        var id :| id in todo;
        if SameNotification(rows[id], peer, o, key) { return Some(id); }
        todo := todo - {id};
      }
      return None;
    }

    /** Gives the row of this delivery: the one with its number, or one for the same notification to the
        same place, or a new one. */
    method RecordOnce(id: Id, peer: Peer, o: Outbound, key: Option<string>) returns (r: Option<Id>)
      requires Valid()
      modifies this`rows, this`alive, this`clock
      ensures Valid()
      ensures rows == old(rows) || (id !in old(rows) && rows == old(rows)[id := Row(peer, o, key, Pending, 0, None)])
      ensures r.Some? ==> r.value in rows
      ensures r.Some? && id in old(rows) ==> r.value == id && rows == old(rows)
      ensures r.Some? && r.value in old(rows) ==> rows == old(rows)
      ensures r.Some? && id !in old(rows) && key.Some? ==> SameNotification(rows[r.value], peer, o, key.value)
      ensures r.Some? && key.Some? && (exists d :: d in old(rows) && SameNotification(old(rows)[d], peer, o, key.value)) ==>
                rows == old(rows)
      ensures r.Some? && id !in old(rows) && key.None? ==> r.value == id && id in rows
      ensures old(Healthy()) ==> Healthy() && r.Some?
    {
      var ok := Reach();
      if !ok { return None; }
      if id in rows { return Some(id); }
      if key.Some? {
        var found := FindNotification(peer, o, key.value);
        if found.Some? { return found; }
      }
      assert forall d :: d in rows && key.Some? && rows[d].peer == peer ==> rows[d].key != key;
      rows := rows[id := Row(peer, o, key, Pending, 0, None)];
      assert Count(history.sent, id) == Count(history.unsaved, id);
      return Some(id);
    }

    /** Writes an outcome down, or fails to. */
    method Settle(id: Id, state: DeliveryState, error: Option<string>) returns (ok: bool)
      modifies this`rows, this`alive, this`clock
      ensures ok ==> id in old(rows) && id in rows && rows == old(rows)[id := rows[id]]
      ensures ok ==> rows[id] == Row(old(rows)[id].peer, old(rows)[id].outbound, old(rows)[id].key, state, old(rows)[id].attempts + 1, error)
      ensures !ok ==> rows == old(rows)
      ensures old(Healthy()) ==> Healthy() && (ok <==> id in old(rows))
    {
      ok := Reach();
      ok := ok && id in rows;
      if ok {
        rows := rows[id := Settled(rows[id], state, error)];
      }
    }

    /** The rows that are not settled, in order of their numbers. */
    method PendingIds(peer: Option<Peer>) returns (r: Option<seq<Id>>)
      modifies this`alive, this`clock
      ensures r.Some? ==> IsPending(rows, peer, r.value)
      ensures old(Healthy()) ==> Healthy() && r.Some?
    {
      var ok := Reach();
      if !ok { return None; }
      var todo := set id | id in rows && Unsettled(rows, peer, id);
      var ids := [];
      while todo != {}
        invariant forall id :: id in todo || id in ids <==> Unsettled(rows, peer, id)
        invariant forall a, b :: a in ids && b in todo ==> a < b
        invariant Ascending(ids)
        decreases todo
      {
        var least := Least(todo);
        var id :| id in todo && forall o :: o in todo ==> id <= o;
        assert forall j :: 0 <= j < |ids| ==> ids[j] in ids;
        ids := ids + [id];
        todo := todo - {id};
      }
      return Some(ids);
    }

    // ---------------------------------------------------------- sending

    method Defer(id: Id, reason: string)
      requires Valid() && id in rows && !rows[id].state.Sent?
      modifies this`rows, this`alive, this`clock
      ensures Valid() && Changed(old(rows), history, rows, history, id)
    {
      hide OnePerKey, Accounted, Changed;
      NothingChanged(rows, history, id);
      DeferKeeps(rows, history, id, Some(reason));
      var saved := Settle(id, Deferred, Some(reason));
    }

    method Took(id: Id)
      requires Valid() && id in rows && !rows[id].state.Sent?
      modifies this`rows, this`history, this`alive, this`clock
      ensures Valid() && Changed(old(rows), old(history), rows, history, id)
      ensures Count(history.sent, id) == Count(old(history).sent, id) + 1
      ensures old(Healthy()) ==> Healthy() && rows[id].state.Sent?
    {
      hide OnePerKey, Accounted, Changed;
      TakenKeeps(rows, history, id);
      UnsavedKeeps(rows, history, id);
      history := history.(sent := history.sent[id := Count(history.sent, id) + 1]);
      var saved := Settle(id, Sent, None);
      if !saved {
        history := history.(unsaved := history.unsaved[id := Count(history.unsaved, id) + 1]);
      }
    }

    /** One attempt: at most one message goes out, and only a platform that took it makes the row sent. */
    method Attempt(id: Id) returns (r: Result<Delivery, DeliverError>)
      requires Valid() && id in rows && !rows[id].state.Sent?
      modifies this`rows, this`history, this`alive, this`clock
      ensures Valid() && Changed(old(rows), old(history), rows, history, id)
      ensures Count(old(history).sent, id) <= Count(history.sent, id) <= Count(old(history).sent, id) + 1
      ensures r.Ok? && r.value.state.Sent? <==> Count(history.sent, id) == Count(old(history).sent, id) + 1
      ensures r.Ok? ==> r.value.id == id
      ensures old(Healthy()) ==> Healthy() && rows[id].state.Sent? && r.Ok? && r.value.state.Sent?
    {
      hide OnePerKey, Accounted, Changed;
      NothingChanged(rows, history, id);
      var t := Next();
      if !alive { return Err(Persist); }
      match t.sending {
        case Unavailable =>
          Defer(id, "unavailable");
          r := Ok(Delivery(id, Deferred));
        case Takes =>
          Took(id);
          r := Ok(Delivery(id, Sent));
        case Defers(reason) =>
          Defer(id, reason);
          r := Ok(Delivery(id, Deferred));
        case Refuses(error) =>
          Defer(id, error);
          r := Err(Refused(error));
      }
    }

    /** `send_recorded_locked`: a row that is sent is not sent again. */
    method SendLocked(id: Id) returns (r: Result<Delivery, DeliverError>)
      requires Valid() && id in rows
      modifies this`rows, this`history, this`alive, this`clock
      ensures Valid() && Changed(old(rows), old(history), rows, history, id)
      ensures Count(old(history).sent, id) <= Count(history.sent, id) <= Count(old(history).sent, id) + 1
      ensures r.Ok? ==> r.value.id == id
      ensures r.Ok? && r.value.state.Sent? <==>
              old(rows)[id].state.Sent? || Count(history.sent, id) == Count(old(history).sent, id) + 1
      ensures old(Healthy()) ==> Healthy() && rows[id].state.Sent? && r.Ok? && r.value.state.Sent?
    {
      hide OnePerKey, Accounted, Changed;
      NothingChanged(rows, history, id);
      if rows[id].state.Sent? { return Ok(Delivery(id, Sent)); }
      r := Attempt(id);
    }

    // ---------------------------------------------------------- the operations

    /** Writes the row first, then sends that row and no other. `row` is the row, once it is written. */
    method Deliver(id: Id, peer: Peer, o: Outbound) returns (r: Result<Delivery, DeliverError>, ghost row: Option<Id>)
      requires Valid()
      modifies this`rows, this`history, this`alive, this`clock
      ensures Valid() && Settles(old(rows), old(history), rows, history)
      ensures Grows(old(rows), rows, id, peer, o, NotificationKey(o))
      ensures Delivers(old(rows), rows, id, peer, o, NotificationKey(o), row)
      ensures OnlyRow(old(rows), old(history), rows, history, row)
      ensures Answers(r, row, old(history), history, old(rows))
      ensures old(Healthy()) ==>
                Healthy() && r.Ok? && r.value.state.Sent? && row.Some? && row.value in rows && rows[row.value].state.Sent?
      ensures id !in old(rows) && row.Some? && NewsTo(old(rows), peer, o) ==> row == Some(id)
      ensures id !in old(rows) && row.Some? && row.value in old(rows) ==> !o.Plain?
      ensures old(Healthy()) && id !in old(rows) && NewsTo(old(rows), peer, o) ==>
                && id in rows && rows[id].peer == peer && rows[id].outbound == o && rows[id].state.Sent?
                && (forall d: Id :: Count(history.sent, d) == Count(old(history).sent, d) + if d == id then 1 else 0)
      ensures PlainIds(o) && row.Some? && (exists d :: d in old(rows) && ToldBefore(old(rows)[d], peer, o)) ==> rows.Keys == old(rows).Keys
    {
      hide OnePerKey, Accounted, Settles, SameNotification, NotificationKey, PlainIds, Count;
      r, row := DeliverKeyed(id, peer, o, NotificationKey(o));
      SettlesKeeps(old(rows), old(history), rows, history);
      NewsMakesARow(old(rows), rows, id, peer, o, row);
    }

    /** `deliver_once`: the same notification to the same place goes by the same row. */
    method DeliverKeyed(id: Id, peer: Peer, o: Outbound, key: Option<string>)
      returns (r: Result<Delivery, DeliverError>, ghost row: Option<Id>)
      requires Valid()
      modifies this`rows, this`history, this`alive, this`clock
      ensures Valid() && Settles(old(rows), old(history), rows, history)
      ensures Grows(old(rows), rows, id, peer, o, key)
      ensures Delivers(old(rows), rows, id, peer, o, key, row)
      ensures OnlyRow(old(rows), old(history), rows, history, row)
      ensures Answers(r, row, old(history), history, old(rows))
      ensures old(Healthy()) ==>
                Healthy() && r.Ok? && r.value.state.Sent? && row.Some? && row.value in rows && rows[row.value].state.Sent?
    {
      hide OnePerKey, Accounted, Settles, Changed, SameNotification;
      var recorded := RecordOnce(id, peer, o, key);
      row := recorded;
      ghost var between := rows;
      RecordSettles(old(rows), history, rows, id);
      if recorded.None? { return Err(Persist), row; }
      r := SendLocked(recorded.value);
      ChangedSettles(between, old(history), rows, history, recorded.value);
      OthersStay(between, old(history), rows, history, recorded.value);
      SettlesKeeps(between, old(history), rows, history);
      KeepsNotification(between, rows, recorded.value, peer, o, key);
      SettlesOn(old(rows), old(history), between, old(history), rows, history);
    }

    /** Sends a recorded delivery by its number, as it stands now. */
    method SendRecorded(id: Id) returns (r: Result<Delivery, DeliverError>)
      requires Valid()
      modifies this`rows, this`history, this`alive, this`clock
      ensures Valid() && Settles(old(rows), old(history), rows, history)
      ensures rows.Keys == old(rows).Keys
      ensures id in old(rows) ==> Changed(old(rows), old(history), rows, history, id)
      ensures Count(old(history).sent, id) <= Count(history.sent, id) <= Count(old(history).sent, id) + 1
      ensures r.Ok? ==> r.value.id == id && id in old(rows)
      ensures r.Ok? && r.value.state.Sent? ==>
                (id in old(rows) && old(rows)[id].state.Sent?) || Count(history.sent, id) == Count(old(history).sent, id) + 1
      ensures Count(history.sent, id) == Count(old(history).sent, id) + 1 ==> r.Ok? && r.value.state.Sent?
      ensures old(Healthy()) ==> Healthy() && (id in old(rows) ==> rows[id].state.Sent? && r.Ok? && r.value.state.Sent?)
    {
      hide OnePerKey, Accounted, Settles, Changed;
      NothingChanged(rows, history, id);
      ChangedSettles(rows, history, rows, history, id);
      var ok := Reach();
      if !ok || id !in rows { return Err(Persist); }
      r := SendLocked(id);
      ChangedSettles(old(rows), old(history), rows, history, id);
      OthersStay(old(rows), old(history), rows, history, id);
    }

    /** One row of a pass. */
    method TryOne(id: Id, platform: Option<string>) returns (took: bool)
      requires Valid() && id in rows && !rows[id].state.Sent?
      modifies this`rows, this`history, this`alive, this`clock
      ensures Valid() && Settles(old(rows), old(history), rows, history)
      ensures rows.Keys == old(rows).Keys && forall d :: d in rows && d != id ==> rows[d] == old(rows)[d]
      ensures forall d: Id :: Count(history.sent, d) == Count(old(history).sent, d) + if took && d == id then 1 else 0
      ensures took ==> OnPlatform(old(rows)[id], platform)
      ensures old(Healthy()) ==> Healthy() && (OnPlatform(old(rows)[id], platform) ==> rows[id].state.Sent?)
    {
      hide OnePerKey, Accounted, Settles, Changed;
      SettlesRefl(rows, history);
      if !OnPlatform(rows[id], platform) { return false; }
      var r := SendLocked(id);
      OthersStay(old(rows), old(history), rows, history, id);
      ChangedSettles(old(rows), old(history), rows, history, id);
      took := r.Ok? && r.value.state.Sent?;
    }

    /** One pass over the given rows. */
    method SendAll(ids: seq<Id>, platform: Option<string>) returns (n: nat, ghost taken: set<Id>)
      requires Valid() && Ascending(ids) && forall id :: id in ids ==> id in rows && !rows[id].state.Sent?
      modifies this`rows, this`history, this`alive, this`clock
      ensures Valid() && Settles(old(rows), old(history), rows, history)
      ensures rows.Keys == old(rows).Keys
      ensures n == |taken| && forall id :: id in taken ==> id in ids && OnPlatform(old(rows)[id], platform)
      ensures forall id: Id :: Count(history.sent, id) == Count(old(history).sent, id) + if id in taken then 1 else 0
      ensures old(Healthy()) ==> Healthy() && forall id :: id in ids && OnPlatform(old(rows)[id], platform) ==>
                id in rows && rows[id].state.Sent?
    {
      hide OnePerKey, Accounted, Settles, OnPlatform, Ascending, Count;
      n, taken := 0, {};
      SettlesRefl(rows, history);
      for i := 0 to |ids|
        invariant Valid() && Settles(old(rows), old(history), rows, history)
        invariant rows.Keys == old(rows).Keys
        invariant n == |taken|
        invariant forall id :: id in taken ==> id in ids[..i] && OnPlatform(old(rows)[id], platform)
        invariant forall id: Id :: Count(history.sent, id) == Count(old(history).sent, id) + if id in taken then 1 else 0
        invariant forall j :: i <= j < |ids| ==> rows[ids[j]] == old(rows)[ids[j]]
        invariant old(Healthy()) ==> Healthy() && forall j :: 0 <= j < i && OnPlatform(old(rows)[ids[j]], platform) ==>
                    rows[ids[j]].state.Sent?
      {
        var id := ids[i];
        Distinct(ids, i);
        ghost var rows0, history0 := rows, history;
        var took := TryOne(id, platform);
        SettlesOn(old(rows), old(history), rows0, history0, rows, history);
        if took {
          n, taken := n + 1, taken + {id};
        }
      }
      assert ids[..|ids|] == ids;
    }

    /** `flush` and `flush_platform`: everything unsettled is tried once more. */
    method Flush(peer: Option<Peer>, platform: Option<string>) returns (n: nat, ghost taken: set<Id>)
      requires Valid()
      modifies this`rows, this`history, this`alive, this`clock
      ensures Valid() && Settles(old(rows), old(history), rows, history)
      ensures rows.Keys == old(rows).Keys
      ensures n == |taken| && forall id :: id in taken ==>
                && id in old(rows) && !old(rows)[id].state.Sent?
                && (peer.Some? ==> old(rows)[id].peer == peer.value)
                && (platform.Some? ==> old(rows)[id].peer.platform == platform.value)
      ensures forall id: Id :: Count(history.sent, id) == Count(old(history).sent, id) + if id in taken then 1 else 0
      ensures old(Healthy()) ==> Healthy() && forall id :: Unsettled(old(rows), peer, id) && OnPlatform(old(rows)[id], platform) ==>
                id in rows && rows[id].state.Sent?
    {
      hide OnePerKey, Accounted, Settles, Changed;
      SettlesRefl(rows, history);
      var ids := PendingIds(peer);
      if ids.None? { return 0, {}; }
      assert forall id :: id in ids.value <==> Unsettled(rows, peer, id);
      n, taken := SendAll(ids.value, platform);
    }
  }

  /** Any use of the log. */
  datatype Use =
    | ToDeliver(id: Id, peer: Peer, message: Outbound)
    | ToDeliverOnce(id: Id, peer: Peer, message: Outbound, key: string)
    | ToSendRecorded(id: Id)
    | ToFlush(only: Option<Peer>)
    | ToFlushPlatform(platform: string)
    | ToRestart

  /** There is a row for this delivery, and it says sent. */
  ghost predicate Told(rows: Rows, id: Id, peer: Peer, o: Outbound, key: Option<string>) {
    exists d :: d in rows && rows[d].state.Sent? && (d == id || (key.Some? && SameNotification(rows[d], peer, o, key.value)))
  }

  /** What a use has seen to, of the rows there were and of its own message. */
  ghost predicate Served(before: Rows, after: Rows, use: Use) {
    match use
    case ToDeliver(id, peer, message) => Told(after, id, peer, message, NotificationKey(message))
    case ToDeliverOnce(id, peer, message, key) => Told(after, id, peer, message, Some(key))
    case ToSendRecorded(id) => id in before ==> IsSent(after, id)
    case ToFlush(only) => forall id :: id in before && (only.Some? ==> before[id].peer == only.value) ==> IsSent(after, id)
    case ToFlushPlatform(platform) => forall id :: id in before && before[id].peer.platform == platform ==> IsSent(after, id)
    case ToRestart => true
  }

  predicate IsSent(rows: Rows, id: Id) { id in rows && rows[id].state.Sent? }

  lemma ServedOn(before: Rows, after: Rows, h: History, later: Rows, h': History, use: Use)
    requires Served(before, after, use) && Settles(after, h, later, h')
    ensures Served(before, later, use)
  {
    hide NotificationKey;
    match use {
      case ToDeliver(id, peer, message) => ToldOn(after, h, later, h', id, peer, message, NotificationKey(message));
      case ToDeliverOnce(id, peer, message, key) => ToldOn(after, h, later, h', id, peer, message, Some(key));
      case _ =>
    }
  }

  lemma ToldOn(after: Rows, h: History, later: Rows, h': History, id: Id, peer: Peer, o: Outbound, key: Option<string>)
    requires Told(after, id, peer, o, key) && Settles(after, h, later, h')
    ensures Told(later, id, peer, o, key)
  {
    var d :| d in after && after[d].state.Sent? && (d == id || (key.Some? && SameNotification(after[d], peer, o, key.value)));
    assert d in later && later[d] == after[d];
  }

  lemma ServedEarlier(first: Rows, h: History, before: Rows, h': History, after: Rows, use: Use)
    requires Settles(first, h, before, h') && Served(before, after, use)
    ensures Served(first, after, use)
  {
  }

  lemma DeliveredIsTold(before: Rows, after: Rows, id: Id, peer: Peer, o: Outbound, key: Option<string>, row: Option<Id>)
    requires Delivers(before, after, id, peer, o, key, row) && row.Some? && row.value in after && after[row.value].state.Sent?
    ensures Told(after, id, peer, o, key)
  {
  }

  lemma NothingLeft(before: Rows, h: History, after: Rows, h': History, peer: Option<Peer>, platform: Option<string>)
    requires Settles(before, h, after, h')
    requires forall id :: Unsettled(before, peer, id) && OnPlatform(before[id], platform) ==> IsSent(after, id)
    ensures forall id :: id in before && (peer.Some? ==> before[id].peer == peer.value) && OnPlatform(before[id], platform) ==>
              IsSent(after, id)
  {
  }

  method UseOnce(log: DeliveryLog, use: Use)
    requires log.Valid()
    modifies log`rows, log`history, log`alive, log`clock
    ensures log.Valid() && Settles(old(log.rows), old(log.history), log.rows, log.history)
    ensures NoNewLegacy(old(log.rows), log.rows)
    ensures old(log.Healthy()) ==> log.Healthy() && Served(old(log.rows), log.rows, use)
  {
    hide OnePerKey, Accounted, Settles, Delivers, OnlyRow, Answers, Told, SameNotification, LegacyMatches;
    SettlesRefl(log.rows, log.history);
    match use {
      case ToDeliver(id, peer, message) =>
        var r;
        ghost var row;
        r, row := log.Deliver(id, peer, message);
        if old(log.Healthy()) {
          DeliveredIsTold(old(log.rows), log.rows, id, peer, message, NotificationKey(message), row);
        }
      case ToDeliverOnce(id, peer, message, key) =>
        var r;
        ghost var row;
        r, row := log.DeliverKeyed(id, peer, message, Some(key));
        if old(log.Healthy()) {
          DeliveredIsTold(old(log.rows), log.rows, id, peer, message, Some(key), row);
        }
      case ToSendRecorded(id) => var r := log.SendRecorded(id);
      case ToFlush(peer) =>
        var n;
        ghost var taken;
        n, taken := log.Flush(peer, None);
        if old(log.Healthy()) {
          NothingLeft(old(log.rows), old(log.history), log.rows, log.history, peer, None);
        }
      case ToFlushPlatform(platform) =>
        var n;
        ghost var taken;
        n, taken := log.Flush(None, Some(platform));
        if old(log.Healthy()) {
          NothingLeft(old(log.rows), old(log.history), log.rows, log.history, None, Some(platform));
        }
      case ToRestart => log.Restart();
    }
  }

  /** Main result, for every sequence of uses: no row is lost, a row that says sent stays as it is and is
      not sent again, and a platform takes each delivery at most once more than its outcome was lost. And with
      nothing going wrong every use has seen to its own: what was to be delivered, flushed or sent says sent. */
  method AnyUse(log: DeliveryLog, uses: seq<Use>)
    requires log.Valid()
    modifies log`rows, log`history, log`alive, log`clock
    ensures log.Valid() && Settles(old(log.rows), old(log.history), log.rows, log.history)
    ensures NoNewLegacy(old(log.rows), log.rows)
    ensures forall id: Id :: Count(log.history.unsaved, id) <= Count(log.history.sent, id) <= Count(log.history.unsaved, id) + 1
    ensures old(log.Healthy()) ==> log.Healthy() && forall i :: 0 <= i < |uses| ==> Served(old(log.rows), log.rows, uses[i])
  {
    hide OnePerKey, Accounted, Settles, Served;
    SettlesRefl(log.rows, log.history);
    for i := 0 to |uses|
      invariant log.Valid() && Settles(old(log.rows), old(log.history), log.rows, log.history)
      invariant NoNewLegacy(old(log.rows), log.rows)
      invariant old(log.Healthy()) ==> log.Healthy() && forall j :: 0 <= j < i ==> Served(old(log.rows), log.rows, uses[j])
    {
      SettlesKeys(old(log.rows), old(log.history), log.rows, log.history);
      ghost var rows, history := log.rows, log.history;
      UseOnce(log, uses[i]);
      if old(log.Healthy()) {
        ServedEarlier(old(log.rows), old(log.history), rows, history, log.rows, uses[i]);
        forall j | 0 <= j < i ensures Served(old(log.rows), log.rows, uses[j]) {
          ServedOn(old(log.rows), rows, history, log.rows, log.history, uses[j]);
        }
      }
      SettlesOn(old(log.rows), old(log.history), rows, history, log.rows, log.history);
      SettlesKeeps(rows, history, log.rows, log.history);
    }
    forall id: Id
      ensures Count(log.history.unsaved, id) <= Count(log.history.sent, id) <= Count(log.history.unsaved, id) + 1
    {
      TakenAtMostOnceMore(log.rows, log.history, id);
    }
  }

  /** New rows without a key are plain messages. */
  predicate NoNewLegacy(before: Rows, after: Rows) {
    forall d :: d in after && d !in before && after[d].key.None? ==> after[d].outbound.Plain?
  }

  /** Main result: however a notification is repeated, and whatever else the log is used for in between,
      crashes included, it keeps to one row; so the platform takes it at most once more than an outcome was
      lost. (Rows from before there were keys are told apart by their run alone; there are none about it.) */
  method NotifyTwice(log: DeliveryLog, first: Id, second: Id, peer: Peer, o: Outbound, key: string, uses: seq<Use>)
    returns (r1: Result<Delivery, DeliverError>, r2: Result<Delivery, DeliverError>, unused: bool)
    requires log.Valid() && first !in log.rows
    requires forall d :: d in log.rows ==> !LegacyMatches(log.rows[d], o)
    modifies log`rows, log`history, log`alive, log`clock
    ensures log.Valid() && Settles(old(log.rows), old(log.history), log.rows, log.history)
    ensures r1.Ok? && r2.Ok? && unused ==> r1.value.id == r2.value.id
  {
    hide Accounted, Settles, OnePerKey, SameNotification, LegacyMatches, OnlyRow, Answers;
    ghost var rows0, history0 := log.rows, log.history;
    ghost var row1, row2;
    r1, row1 := log.DeliverKeyed(first, peer, o, Some(key));
    ghost var rows1, history1 := log.rows, log.history;
    AnswersRow(r1, row1, history0, history1, rows0);
    AnyUse(log, uses);
    ghost var rows2, history2 := log.rows, log.history;
    unused := second !in log.rows;
    r2, row2 := log.DeliverKeyed(second, peer, o, Some(key));
    AnswersRow(r2, row2, history2, log.history, rows2);
    SettlesOn(rows0, history0, rows1, history1, rows2, history2);
    SettlesOn(rows0, history0, rows2, history2, log.rows, log.history);
    if r1.Ok? && r2.Ok? && unused {
      NewRowMatches(rows0, rows1, first, peer, o, key, row1);
      NotificationStays(rows1, history1, rows2, history2, r1.value.id, peer, o, key);
      NoLegacyLater(rows0, history0, rows1, history1, first, peer, o, key);
      NoLegacyThrough(rows1, history1, rows2, history2, o);
      NotificationWas(rows2, history2, log.rows, log.history, r2.value.id, peer, o, key);
      SettlesKeys(rows2, history2, log.rows, log.history);
      SameRow(rows2, r1.value.id, r2.value.id, peer, o, key);
    }
  }

  /** The row was made for its own message: `Deliver` makes all its rows so. */
  predicate OwnRow(row: Row) {
    row.key == NotificationKey(row.outbound) && PlainIds(row.outbound)
  }

  /** Every row for this place is about something else. */
  predicate NewsTo(rows: Rows, peer: Peer, o: Outbound) {
    PlainIds(o) && forall d :: d in rows && rows[d].peer == peer ==> OwnRow(rows[d]) && !SameMatter(rows[d].outbound, o)
  }

  predicate ToldBefore(row: Row, peer: Peer, o: Outbound) {
    row.peer == peer && OwnRow(row) && SameMatter(row.outbound, o)
  }

  lemma NewsMakesARow(before: Rows, after: Rows, id: Id, peer: Peer, o: Outbound, row: Option<Id>)
    requires Delivers(before, after, id, peer, o, NotificationKey(o), row) && Grows(before, after, id, peer, o, NotificationKey(o))
    requires forall d :: d in before ==> d in after && after[d].key == before[d].key && after[d].peer == before[d].peer
                                         && after[d].outbound == before[d].outbound
    ensures id !in before && row.Some? && NewsTo(before, peer, o) ==>
              row == Some(id) && id in after && after[id].peer == peer && after[id].outbound == o
    ensures id !in before && row.Some? && row.value in before ==> !o.Plain?
    ensures PlainIds(o) && row.Some? && (exists d :: d in before && ToldBefore(before[d], peer, o)) ==> after.Keys == before.Keys
  {
    hide NotificationKey, PlainIds, SameMatter;
    if id !in before && row.Some? && row.value in before {
      var d := row.value;
      PlainHasNoKey(o);
      if NewsTo(before, peer, o) {
        NotOfThisRow(before[d], peer, o);
      }
    }
    if PlainIds(o) && row.Some? && exists d :: d in before && ToldBefore(before[d], peer, o) {
      var d :| d in before && ToldBefore(before[d], peer, o);
      KeyTellsApart(before[d].outbound, o);
      assert SameNotification(before[d], peer, o, NotificationKey(o).value);
      assert after.Keys == before.Keys;
    }
  }

  lemma PlainHasNoKey(o: Outbound)
    ensures o.Plain? ==> NotificationKey(o).None?
  {
  }

  lemma NotOfThisRow(row: Row, peer: Peer, o: Outbound)
    requires OwnRow(row) && !SameMatter(row.outbound, o) && PlainIds(o)
    ensures NotificationKey(o).Some? ==> !SameNotification(row, peer, o, NotificationKey(o).value)
  {
    hide Split;
    KeyTellsApart(row.outbound, o);
  }

  lemma AnswersRow(r: Result<Delivery, DeliverError>, row: Option<Id>, h: History, h': History, before: Rows)
    requires Answers(r, row, h, h', before)
    ensures r.Ok? ==> row == Some(r.value.id)
  {
  }

  lemma NewRowMatches(before: Rows, after: Rows, id: Id, peer: Peer, o: Outbound, key: string, row: Option<Id>)
    requires Delivers(before, after, id, peer, o, Some(key), row) && Grows(before, after, id, peer, o, Some(key))
    requires row.Some? && id !in before
    ensures row.value in after && SameNotification(after[row.value], peer, o, key)
  {
  }

  /** Rows are only added under this number, for this message, place and key. */
  predicate Grows(before: Rows, after: Rows, id: Id, peer: Peer, o: Outbound, key: Option<string>) {
    && (forall d :: d in after ==> d in before || d == id)
    && (id in after && id !in before ==> after[id].key == key && after[id].peer == peer && after[id].outbound == o)
  }

  /** The row used is the one with this number; or, under a new number, the one there was for this
      notification to this place, or a new one for just this message. */
  ghost predicate Delivers(before: Rows, after: Rows, id: Id, peer: Peer, o: Outbound, key: Option<string>, row: Option<Id>) {
    row.Some? ==>
      && row.value in after
      && (id in before ==> row.value == id)
      && (id !in before && row.value in before ==> key.Some? && SameNotification(after[row.value], peer, o, key.value))
      && (if row.value in before then after.Keys == before.Keys else row.value == id)
      && (key.Some? && (exists d :: d in before && SameNotification(before[d], peer, o, key.value)) ==> row.value in before)
  }

  /** No other row changed, and no other was sent. */
  ghost predicate OnlyRow(before: Rows, h: History, after: Rows, h': History, row: Option<Id>) {
    forall d: Id :: row != Some(d) ==>
      (d in before ==> d in after && after[d] == before[d]) && Count(h'.sent, d) == Count(h.sent, d)
  }

  /** Without an answer about a row nothing was sent; an answer is about the row used, and it says sent exactly
      if the platform took the message now, or the row said so already. */
  ghost predicate Answers(r: Result<Delivery, DeliverError>, row: Option<Id>, h: History, h': History, before: Rows) {
    && (row.None? ==> r == Err(Persist))
    && (r.Ok? ==> row == Some(r.value.id))
    && (row.Some? ==>
          var took := Count(h'.sent, row.value) == Count(h.sent, row.value) + 1;
          && (took || Count(h'.sent, row.value) == Count(h.sent, row.value))
          && (r.Ok? && r.value.state.Sent? <==> took || (row.value in before && before[row.value].state.Sent?)))
  }

  lemma KeepsNotification(before: Rows, after: Rows, id: Id, peer: Peer, o: Outbound, key: Option<string>)
    requires id in before && id in after
    requires after[id].key == before[id].key && after[id].peer == before[id].peer && after[id].outbound == before[id].outbound
    ensures key.Some? && SameNotification(before[id], peer, o, key.value) ==> SameNotification(after[id], peer, o, key.value)
  {
  }

  lemma SettlesKeys(before: Rows, h: History, after: Rows, h': History)
    requires Settles(before, h, after, h')
    ensures forall d :: d in before ==> d in after
  {
  }

  lemma SettlesKeeps(before: Rows, h: History, after: Rows, h': History)
    requires Settles(before, h, after, h')
    ensures forall d :: d in before ==> d in after && after[d].key == before[d].key && after[d].peer == before[d].peer
                                        && after[d].outbound == before[d].outbound
  {
  }

  lemma NotificationStays(before: Rows, h: History, after: Rows, h': History, id: Id, peer: Peer, o: Outbound, key: string)
    requires Settles(before, h, after, h') && id in before && SameNotification(before[id], peer, o, key)
    ensures id in after && SameNotification(after[id], peer, o, key)
  {
  }

  lemma NotificationWas(before: Rows, h: History, after: Rows, h': History, id: Id, peer: Peer, o: Outbound, key: string)
    requires Settles(before, h, after, h') && id in before && id in after && SameNotification(after[id], peer, o, key)
    ensures SameNotification(before[id], peer, o, key)
  {
  }

  lemma NoLegacyLater(before: Rows, h: History, after: Rows, h': History, id: Id, peer: Peer, o: Outbound, key: string)
    requires Settles(before, h, after, h') && Grows(before, after, id, peer, o, Some(key))
    requires forall d :: d in before ==> !LegacyMatches(before[d], o)
    ensures forall d :: d in after ==> !LegacyMatches(after[d], o)
  {
  }

  lemma NoLegacyThrough(before: Rows, h: History, after: Rows, h': History, o: Outbound)
    requires Settles(before, h, after, h') && NoNewLegacy(before, after)
    requires forall d :: d in before ==> !LegacyMatches(before[d], o)
    ensures forall d :: d in after ==> !LegacyMatches(after[d], o)
  {
  }

  lemma SameRow(rows: Rows, a: Id, b: Id, peer: Peer, o: Outbound, key: string)
    requires OnePerKey(rows) && a in rows && b in rows
    requires SameNotification(rows[a], peer, o, key) && SameNotification(rows[b], peer, o, key)
    requires !LegacyMatches(rows[a], o) && !LegacyMatches(rows[b], o)
    ensures a == b
  {
  }

  lemma Distinct(ids: seq<Id>, i: nat)
    requires Ascending(ids) && i < |ids|
    ensures ids[i] in ids && ids[i] !in ids[..i] && ids[..i + 1] == ids[..i] + [ids[i]]
    ensures forall j :: 0 <= j < |ids| && j != i ==> ids[j] != ids[i]
  {
  }

  predicate OnPlatform(row: Row, platform: Option<string>) {
    platform.Some? ==> row.peer.platform == platform.value
  }

  lemma SettlesRefl(rows: Rows, h: History)
    ensures Settles(rows, h, rows, h)
  {
  }

  lemma SettlesOn(rows0: Rows, h0: History, rows1: Rows, h1: History, rows2: Rows, h2: History)
    requires Settles(rows0, h0, rows1, h1) && Settles(rows1, h1, rows2, h2)
    ensures Settles(rows0, h0, rows2, h2)
  {
  }

  lemma ChangedSettles(rows0: Rows, h0: History, rows1: Rows, h1: History, id: Id)
    requires Changed(rows0, h0, rows1, h1, id)
    ensures Settles(rows0, h0, rows1, h1)
  {
  }

  lemma OthersStay(rows0: Rows, h0: History, rows1: Rows, h1: History, id: Id)
    requires Changed(rows0, h0, rows1, h1, id)
    ensures rows0.Keys == rows1.Keys
    ensures forall d: Id :: d != id ==> (d in rows0 ==> rows1[d] == rows0[d]) && Count(h1.sent, d) == Count(h0.sent, d)
  {
  }

  lemma RecordSettles(before: Rows, h: History, after: Rows, id: Id)
    requires after == before || (id !in before && id in after && after == before[id := after[id]])
    ensures Settles(before, h, after, h)
  {
  }

  lemma SentWasTaken(rows: Rows, h: History, id: Id)
    requires Accounted(rows, h)
    ensures id in rows && rows[id].state.Sent? ==> Count(h.sent, id) > 0
  {
  }

  /** What the accounts mean: without a lost outcome, never twice. */
  lemma TakenAtMostOnceMore(rows: Rows, h: History, id: Id)
    requires Accounted(rows, h)
    ensures Count(h.unsaved, id) <= Count(h.sent, id) <= Count(h.unsaved, id) + 1
    ensures Count(h.sent, id) == Count(h.unsaved, id) + 1 <==> id in rows && rows[id].state.Sent?
    ensures Count(h.unsaved, id) == 0 ==> (Count(h.sent, id) == 1 <==> id in rows && rows[id].state.Sent?)
  {
  }

  function Settled(row: Row, state: DeliveryState, error: Option<string>): Row {
    row.(state := state, attempts := row.attempts + 1, error := error)
  }

  predicate Unsettled(rows: Rows, peer: Option<Peer>, id: Id) {
    id in rows && !rows[id].state.Sent? && (peer.Some? ==> rows[id].peer == peer.value)
  }

  predicate Ascending(ids: seq<Id>) {
    forall i, j :: 0 <= i < j < |ids| ==> ids[i] < ids[j]
  }

  /** Every unsettled row is listed, once, in order. */
  ghost predicate IsPending(rows: Rows, peer: Option<Peer>, ids: seq<Id>) {
    Ascending(ids) && forall id :: id in ids <==> Unsettled(rows, peer, id)
  }

  /** Nothing but this delivery changed, and of it only how it stands. */
  ghost predicate Changed(before: Rows, h: History, after: Rows, h': History, id: Id) {
    && before.Keys == after.Keys
    && Settles(before, h, after, h')
    && forall d: Id :: d != id ==>
         && (d in before ==> after[d] == before[d])
         && Count(h'.sent, d) == Count(h.sent, d) && Count(h'.unsaved, d) == Count(h.unsaved, d)
  }

  lemma NothingChanged(rows: Rows, h: History, id: Id)
    ensures Changed(rows, h, rows, h, id)
  {
  }

  lemma DeferKeeps(rows: Rows, h: History, id: Id, error: Option<string>)
    requires OnePerKey(rows) && Accounted(rows, h) && id in rows && !rows[id].state.Sent?
    ensures var after := rows[id := Settled(rows[id], Deferred, error)];
            OnePerKey(after) && Accounted(after, h) && Changed(rows, h, after, h, id)
  {
  }

  lemma TakenKeeps(rows: Rows, h: History, id: Id)
    requires OnePerKey(rows) && Accounted(rows, h) && id in rows && !rows[id].state.Sent?
    ensures var after, h' := rows[id := Settled(rows[id], Sent, None)], h.(sent := h.sent[id := Count(h.sent, id) + 1]);
            OnePerKey(after) && Accounted(after, h') && Changed(rows, h, after, h', id)
  {
  }

  lemma UnsavedKeeps(rows: Rows, h: History, id: Id)
    requires OnePerKey(rows) && Accounted(rows, h) && id in rows && !rows[id].state.Sent?
    ensures var h' := History(h.sent[id := Count(h.sent, id) + 1], h.unsaved[id := Count(h.unsaved, id) + 1]);
            Accounted(rows, h') && Changed(rows, h, rows, h', id)
  {
  }

  ghost function Least(s: set<Id>): (least: Id)
    requires s != {}
    ensures least in s && forall o :: o in s ==> least <= o
    decreases s
  {
    var any :| any in s;
    var others := s - {any};
    assert s == others + {any};
    if others == {} then any
    else
      var rest := Least(others);
      if any < rest then any else rest
  }
}
