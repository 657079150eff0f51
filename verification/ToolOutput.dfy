/** `FileToolOutputStore` (crates/komo-store/src/tool_output.rs): the complete output of every attempt.

    Streams grow in `.partial` files; a publish renames them, then renames `output.json` into place.
    The disk may stop before, after or inside any operation. A process that died is a store nobody
    calls again; the next process makes a new store over the same disk. */
module ToolOutput {
  import opened Files
  import opened OutputHistory
  import opened Text
  import opened Utf8

  /** One stream of one attempt: whether its file is open, and the bytes counted into it. */
  datatype Slot = Slot(open: bool, bytes: nat)

  datatype Streams = Streams(stdout: Slot, stderr: Slot, started: nat) {
    function At(s: Stream): Slot { if s.Stdout? then stdout else stderr }
    function With(s: Stream, slot: Slot): (r: Streams)
      ensures r.At(s) == slot && forall u: Stream :: u != s ==> r.At(u) == At(u)
      ensures r.started == started
    {
      if s.Stdout? then this.(stdout := slot) else this.(stderr := slot)
    }
  }

  // ------------------------------------------------------------ keys

  /** Identifiers become path components. */
  predicate Plain(id: string) { id != "" && '/' !in id }
  predicate PlainDir(d: Dir) { Plain(d.run) && Plain(d.call) && Plain(d.attempt) }

  function StreamKey(d: Dir): string { d.run + "/" + (d.call + "/" + d.attempt) }

  /** Two attempts never share an entry, although attempt numbers repeat from call to call. */
  lemma KeysAreApart(a: Dir, b: Dir)
    requires PlainDir(a) && PlainDir(b) && StreamKey(a) == StreamKey(b)
    ensures a == b
  {
    CutOnce(a.run, a.call + "/" + a.attempt, b.run, b.call + "/" + b.attempt, '/');
    CutOnce(a.call, a.attempt, b.call, b.attempt, '/');
  }

  // ------------------------------------------------------------ open streams and files

  /** A stream is open exactly if its `.partial` file exists; it never counts bytes that are not in it. */
  predicate Held(slot: Slot, nodes: Nodes, t: Trail) {
    && (slot.open <==> In(t.dir, Partial(t.stream)) in nodes)
    && slot.bytes <= |Pending(nodes, t)|
  }

  predicate HeldBoth(e: Streams, nodes: Nodes, d: Dir) {
    Held(e.stdout, nodes, Trail(d, Stdout)) && Held(e.stderr, nodes, Trail(d, Stderr))
  }

  ghost predicate Tracked(streams: map<string, Streams>, nodes: Nodes) {
    forall d: Dir {:trigger StreamKey(d)} :: PlainDir(d) && StreamKey(d) in streams ==>
      HeldBoth(streams[StreamKey(d)], nodes, d)
  }

  /** Nothing outside the directory changed. */
  ghost predicate Elsewhere(before: Nodes, after: Nodes, d: Dir) {
    forall p: Path :: p.dir != d ==> (p in after <==> p in before) && (p in before ==> after[p] == before[p])
  }

  lemma TrackedAfter(streams: map<string, Streams>, before: Nodes, streams': map<string, Streams>, after: Nodes, d: Dir)
    requires Tracked(streams, before) && Elsewhere(before, after, d) && PlainDir(d)
    requires forall k :: k != StreamKey(d) && k in streams' ==> k in streams && streams'[k] == streams[k]
    requires StreamKey(d) in streams' ==> HeldBoth(streams'[StreamKey(d)], after, d)
    ensures Tracked(streams', after)
  {
    forall e: Dir {:trigger StreamKey(e)} | PlainDir(e) && StreamKey(e) in streams'
      ensures HeldBoth(streams'[StreamKey(e)], after, e)
    {
      if e != d {
        if StreamKey(e) == StreamKey(d) {
          KeysAreApart(e, d);
        }
        assert HeldBoth(streams[StreamKey(e)], before, e);
        assert Pending(after, Trail(e, Stdout)) == Pending(before, Trail(e, Stdout));
        assert Pending(after, Trail(e, Stderr)) == Pending(before, Trail(e, Stderr));
      }
    }
  }

  /** What `adopt_partial` makes of a file left behind. */
  function Adopted(nodes: Nodes, t: Trail): Slot {
    Slot(In(t.dir, Partial(t.stream)) in nodes, |Pending(nodes, t)|)
  }

  /** The history with some more bytes of one stream, or unchanged if there are none. */
  ghost predicate Gained(before: History, after: History, t: Trail, bytes: Bytes) {
    after == Wrote(before, t, bytes) || (bytes == [] && after == before)
  }

  class FileToolOutputStore {
    const session: string
    const codec: Codec
    const disk: Disk<Path, Bytes>
    var streams: map<string, Streams>
    ghost var history: History

    ghost predicate Valid()
      reads this`streams, this`history, disk`nodes
    {
      && Lawful(codec)
      && Consistent(disk.nodes, history, codec, session)
      && Tracked(streams, disk.nodes)
    }

    /** A process starts: whatever the last one left, at whatever point it died, is a valid start. */
    constructor (session: string, codec: Codec, disk: Disk<Path, Bytes>, ghost history: History)
      requires Lawful(codec) && Consistent(disk.nodes, history, codec, session)
      ensures Valid() && this.disk == disk && this.session == session && this.codec == codec
      ensures this.history == history && streams == map[]
    {
      this.session, this.codec, this.disk, this.history := session, codec, disk, history;
      streams := map[];
    }

    // ---------------------------------------------------------- begin

    method CreateDirSynced(d: Dir) returns (ok: bool)
      requires Consistent(disk.nodes, history, codec, session)
      modifies disk`nodes, disk`clock
      ensures Consistent(disk.nodes, history, codec, session)
      ensures disk.nodes == old(disk.nodes) || disk.nodes == old(disk.nodes)[Folder(d) := []]
      ensures ok ==> Folder(d) in disk.nodes
      ensures old(disk.Healthy()) ==> ok && disk.Healthy()
    {
      hide Consistent;
      var looked, found := disk.Read(Folder(d));
      if looked && found { return true; }
      ok := disk.Create(Folder(d), []);
      BystanderKeeps(old(disk.nodes), history, codec, session, Folder(d), []);
      if ok {
        ok := disk.Touch();
      }
    }

    method AdoptPartial(t: Trail) returns (adopted: Option<Slot>)
      modifies disk`clock
      ensures adopted.Some? ==> adopted.value == Adopted(disk.nodes, t)
      ensures old(disk.Healthy()) ==> adopted.Some? && disk.Healthy()
    {
      var ok, found := disk.Read(In(t.dir, Partial(t.stream)));
      if !ok { return None; }
      if !found { return Some(Slot(false, 0)); }
      var bytes := |disk.nodes[In(t.dir, Partial(t.stream))]|;
      ok := disk.Touch();
      if !ok { return None; }
      return Some(Slot(true, bytes));
    }

    /** Takes over whatever `.partial` files an interrupted process left, byte for byte. */
    method Begin(a: AttemptRef, now: nat) returns (ok: bool)
      requires Valid() && PlainDir(a.dir)
      modifies this`streams, disk`nodes, disk`clock
      ensures Valid()
      ensures disk.nodes == old(disk.nodes) || disk.nodes == old(disk.nodes)[Folder(a.dir) := []]
      ensures ok ==> a.session == session && Folder(a.dir) in disk.nodes
      ensures streams == if !ok then old(streams) else
                old(streams)[StreamKey(a.dir) := Streams(Adopted(old(disk.nodes), Trail(a.dir, Stdout)),
                                                         Adopted(old(disk.nodes), Trail(a.dir, Stderr)), now)]
      ensures old(disk.Healthy()) ==> disk.Healthy() && (ok <==> a.session == session)
    {
      hide Consistent, Tracked, Lawful;
      if a.session != session { return false; }
      ok := CreateDirSynced(a.dir);
      UntouchedStays(streams, old(disk.nodes), disk.nodes, a.dir);
      if !ok { return; }
      var stdout := AdoptPartial(Trail(a.dir, Stdout));
      if stdout.None? { return false; }
      var stderr := AdoptPartial(Trail(a.dir, Stderr));
      if stderr.None? { return false; }
      var entry := Streams(stdout.value, stderr.value, now);
      TrackedAfter(streams, old(disk.nodes), streams[StreamKey(a.dir) := entry], disk.nodes, a.dir);
      streams := streams[StreamKey(a.dir) := entry];
    }

    // ---------------------------------------------------------- append

    /** Appends a chunk to an open stream. `landed` bytes of it reach the file, whatever happens. */
    method Append(d: Dir, s: Stream, chunk: Bytes) returns (ok: bool, ghost landed: nat)
      requires Valid() && PlainDir(d) && StreamKey(d) in streams && streams[StreamKey(d)].At(s).open
      modifies this`streams, this`history, disk`nodes, disk`clock
      ensures Valid()
      ensures landed <= |chunk| && (ok ==> landed == |chunk|)
      ensures old(disk.Healthy()) ==> ok && disk.Healthy()
      ensures Gained(old(history), history, Trail(d, s), chunk[..landed])
      ensures Pending(disk.nodes, Trail(d, s)) == old(Pending(disk.nodes, Trail(d, s))) + chunk[..landed]
      ensures OnlyFile(old(disk.nodes), disk.nodes, In(d, Partial(s)))
      ensures streams == if ok then old(streams)[StreamKey(d) := Counted(old(streams)[StreamKey(d)], s, |chunk|)] else old(streams)
    {
      hide Consistent, Tracked, Lawful;
      var p := In(d, Partial(s));
      var key := StreamKey(d);
      EntryHeld(streams, disk.nodes, d);
      var content := disk.nodes[p];
      ok := disk.Put(p, content + chunk, k => content + Kept(chunk, k));
      landed := Landed(old(disk.nodes), disk.nodes, p, content, chunk, ok);
      WriteKeeps(old(disk.nodes), history, codec, session, Trail(d, s), chunk[..landed]);
      history := Wrote(history, Trail(d, s), chunk[..landed]);
      if ok {
        streams := streams[key := Counted(streams[key], s, |chunk|)];
      }
      TrackedAfter(old(streams), old(disk.nodes), streams, disk.nodes, d);
    }

    // ---------------------------------------------------------- finish

    /** Renames a stream to its final name and describes it. */
    method FinishStream(d: Dir, s: Stream, slot: Slot) returns (ok: bool, reference: Option<ContentRef>)
      requires Consistent(disk.nodes, history, codec, session) && Held(slot, disk.nodes, Trail(d, s))
      modifies this`history, disk`nodes, disk`clock
      ensures Consistent(disk.nodes, history, codec, session)
      ensures old(disk.Healthy()) ==> ok && disk.Healthy()
      ensures ok ==> In(d, Partial(s)) !in disk.nodes
      ensures ok ==> reference == Described(codec, old(disk.nodes), Trail(d, s), slot)
      ensures StreamStep(old(disk.nodes), old(history), disk.nodes, history, Trail(d, s))
    {
      hide Consistent;
      var from, to := In(d, Partial(s)), In(d, Final(s));
      if !slot.open { return true, None; }
      ok := disk.Touch();
      if !ok { return false, None; }
      ok := disk.Touch();
      if !ok { return false, None; }
      ok := disk.Rename(from, to);
      if !ok { return false, None; }
      SetAsideKeeps(old(disk.nodes), history, codec, session, Trail(d, s));
      history := SetAside(history, Trail(d, s), old(disk.nodes)[from]);
      ok := disk.Touch();
      if !ok { return false, None; }
      var found;
      ok, found := disk.Read(to);
      if !ok || !found { return false, None; }
      reference := Some(ContentRef(to, slot.bytes, codec.hash(disk.nodes[to])));
    }

    /** Opens the stream's `.partial` file if this attempt has not opened it yet. */
    method OpenStream(d: Dir, s: Stream) returns (ok: bool)
      requires Valid() && PlainDir(d) && StreamKey(d) in streams
      modifies this`streams, disk`nodes, disk`clock
      ensures Valid()
      ensures StreamKey(d) in streams && streams == old(streams)[StreamKey(d) := streams[StreamKey(d)]]
      ensures streams[StreamKey(d)] == if ok then Opened(old(streams)[StreamKey(d)], s) else old(streams)[StreamKey(d)]
      ensures Pending(disk.nodes, Trail(d, s)) == old(Pending(disk.nodes, Trail(d, s)))
      ensures OnlyFile(old(disk.nodes), disk.nodes, In(d, Partial(s)))
      ensures old(disk.Healthy()) ==> ok && disk.Healthy()
    {
      hide Consistent, Tracked, Lawful;
      EntryHeld(streams, disk.nodes, d);
      var key := StreamKey(d);
      if streams[key].At(s).open { return true; }
      ok := disk.Create(In(d, Partial(s)), []);
      if ok {
        EmptyFileKeeps(old(disk.nodes), history, codec, session, Trail(d, s));
        streams := streams[key := Opened(streams[key], s)];
      }
      TrackedAfter(old(streams), old(disk.nodes), streams, disk.nodes, d);
    }

    // ---------------------------------------------------------- publish

    /** Finishes both streams. When one of them fails, the other may already have its final name. */
    method FinishStreams(d: Dir, e: Streams) returns (ok: bool, stdout: Option<ContentRef>, stderr: Option<ContentRef>)
      requires Consistent(disk.nodes, history, codec, session) && HeldBoth(e, disk.nodes, d)
      modifies this`history, disk`nodes, disk`clock
      ensures Consistent(disk.nodes, history, codec, session)
      ensures old(disk.Healthy()) ==> ok && disk.Healthy()
      ensures Elsewhere(old(disk.nodes), disk.nodes, d)
      ensures Stopped(old(disk.nodes), old(history), disk.nodes, history, d)
      ensures ok ==> forall s: Stream :: In(d, Partial(s)) !in disk.nodes
      ensures ok ==> stdout == Described(codec, old(disk.nodes), Trail(d, Stdout), e.stdout)
      ensures ok ==> stderr == Described(codec, old(disk.nodes), Trail(d, Stderr), e.stderr)
    {
      hide Consistent, Stopped, StreamStep;
      ok, stdout := FinishStream(d, Stdout, e.stdout);
      ghost var between, h := disk.nodes, history;
      FirstStep(old(disk.nodes), old(history), between, h, d);
      StderrHeld(old(disk.nodes), old(history), between, h, d, e);
      if !ok { return false, None, None; }
      ok, stderr := FinishStream(d, Stderr, e.stderr);
      BothSteps(old(disk.nodes), old(history), between, h, disk.nodes, history, d);
      if ok {
        forall s: Stream
          ensures In(d, Partial(s)) !in disk.nodes
        {
          assert s == Stdout || s == Stderr;
        }
      }
    }

    /** Writes `output.json` aside, syncs it and renames it into place. */
    method WriteDocument(document: OutputDocument, ghost p: Publication) returns (ok: bool, ghost done: bool)
      requires Consistent(disk.nodes, history, codec, session) && document == p.document
      requires document.session == session && NamesItsStreams(codec, document.dir, p)
      requires forall s: Stream :: In(document.dir, Partial(s)) !in disk.nodes
      requires forall s: Stream :: s in p.contents ==>
                 In(document.dir, Final(s)) in disk.nodes && disk.nodes[In(document.dir, Final(s))] == p.contents[s]
      modifies this`history, disk`nodes, disk`clock
      ensures Consistent(disk.nodes, history, codec, session)
      ensures old(disk.Healthy()) ==> ok && disk.Healthy()
      ensures Elsewhere(old(disk.nodes), disk.nodes, document.dir)
      ensures ok ==> done
      ensures history == if done then Published(old(history), document.dir, p) else old(history)
      ensures forall s: Stream :: In(document.dir, Partial(s)) !in disk.nodes
      ensures forall s: Stream :: SameFile(old(disk.nodes), disk.nodes, In(document.dir, Final(s)))
      ensures !done ==> SameFile(old(disk.nodes), disk.nodes, In(document.dir, Json))
    {
      hide Consistent, NamesItsStreams;
      done := false;
      var d := document.dir;
      var bytes := codec.encode(document);
      ok := disk.Put(In(d, JsonPartial), bytes, k => Kept(bytes, k));
      PutKeeps(old(disk.nodes), disk.nodes, history, codec, session, d, bytes);
      if !ok { return; }
      ok := disk.Touch();
      if !ok { return; }
      ghost var before := disk.nodes;
      ok := disk.Rename(In(d, JsonPartial), In(d, Json));
      if !ok { return; }
      PublishKeeps(before, history, codec, session, d, p);
      history := Published(history, d, p);
      done := true;
      ok := disk.Touch();
    }

    /** `publish`: an attempt's streams and its document get their final names, the document last. It stops
        somewhere on the way or, `done`, it does not; what it has moved by then has moved whole. The
        attempt is one that `begin` has given a writer for, so it is of this session. */
    method Publish(a: AttemptRef, body: ToolResultBody, now: nat)
      returns (r: Option<PublishedOutput>, ghost p: Publication, ghost done: bool)
      requires Valid() && PlainDir(a.dir) && a.session == session
      modifies this`streams, this`history, disk`nodes, disk`clock
      ensures Valid()
      ensures streams == old(streams) - {StreamKey(a.dir)}
      ensures StreamKey(a.dir) !in old(streams) ==>
                r.None? && !done && disk.nodes == old(disk.nodes) && history == old(history)
      ensures StreamKey(a.dir) in old(streams) ==>
                IsPublication(p, codec, session, a.dir, body, now, old(streams)[StreamKey(a.dir)], old(disk.nodes))
      ensures Elsewhere(old(disk.nodes), disk.nodes, a.dir)
      ensures if done then Done(old(disk.nodes), old(history), disk.nodes, history, a.dir, p)
              else Stopped(old(disk.nodes), old(history), disk.nodes, history, a.dir)
      ensures r.Some? ==> done && r.value == ResultOf(codec, p.document)
      ensures old(disk.Healthy()) ==> disk.Healthy() && (r.Some? <==> StreamKey(a.dir) in old(streams))
    {
      hide Consistent, Tracked, Lawful, IsPublication, Stopped, Done;
      var d := a.dir;
      var key := StreamKey(d);
      done := false;
      p := Publication(OutputDocument(0, "", d, body.status, body, 0, None, None), map[]);
      StoppedAtOnce(disk.nodes, history, d);
      if key !in streams {
        NothingRemoved(streams, key);
        return None, p, false;
      }
      var e := streams[key];
      EntryHeld(streams, disk.nodes, d);
      streams := streams - {key};
      p := PublicationOf(codec, session, d, body, Elapsed(now, e.started), e, disk.nodes);
      PublicationIs(p, codec, session, d, body, now, e, disk.nodes);
      r, done := FinishAndWrite(d, body, Elapsed(now, e.started), e, p);
      TrackedAfter(old(streams), old(disk.nodes), streams, disk.nodes, d);
    }

    /** The part of `publish` after the streams have been taken from the table. */
    method FinishAndWrite(d: Dir, body: ToolResultBody, elapsed: nat, e: Streams, ghost p: Publication)
      returns (r: Option<PublishedOutput>, ghost done: bool)
      requires Consistent(disk.nodes, history, codec, session) && HeldBoth(e, disk.nodes, d)
      requires p == PublicationOf(codec, session, d, body, elapsed, e, disk.nodes)
      modifies this`history, disk`nodes, disk`clock
      ensures Consistent(disk.nodes, history, codec, session)
      ensures Elsewhere(old(disk.nodes), disk.nodes, d)
      ensures if done then Done(old(disk.nodes), old(history), disk.nodes, history, d, p)
              else Stopped(old(disk.nodes), old(history), disk.nodes, history, d)
      ensures r.Some? ==> done && r.value == ResultOf(codec, p.document)
      ensures old(disk.Healthy()) ==> disk.Healthy() && r.Some?
    {
      hide Consistent, NamesItsStreams, Stopped, Done;
      var ok, stdout, stderr := FinishStreams(d, e);
      if !ok { return None, false; }
      ghost var between, h := disk.nodes, history;
      var document := OutputDocument(OUTPUT_FORMAT_VERSION, session, d, body.status, body, elapsed, stdout, stderr);
      PublicationNames(codec, session, d, body, elapsed, e, old(disk.nodes));
      StreamsInPlace(old(disk.nodes), old(history), between, h, d, p);
      ok, done := WriteDocument(document, p);
      StoppedOrDone(old(disk.nodes), old(history), between, h, disk.nodes, history, d, p, done);
      if !ok { return None, done; }
      r := Some(ResultOf(codec, document));
    }

    // ---------------------------------------------------------- recovery

    method CheckStream(d: Dir, s: Stream, reference: Option<ContentRef>) returns (ok: bool, good: bool)
      modifies disk`clock
      ensures old(disk.Healthy()) ==> ok && disk.Healthy()
      ensures ok ==> (good <==> reference.Some? ==> Matches(disk.nodes, codec, d, s, reference.value))
    {
      if reference.None? { return true, true; }
      var p := In(d, Final(s));
      var found;
      ok, found := disk.Read(p);
      if !ok || !found { return ok, false; }
      var content := disk.nodes[p];
      good := |content| == reference.value.size && codec.hash(content) == reference.value.hash && reference.value.path == p;
    }

    /** `find_published`: the outer None is a read that failed. */
    method FindPublished(a: AttemptRef) returns (r: Option<Option<PublishedOutput>>)
      requires Valid()
      modifies disk`clock
      ensures Valid()
      ensures r.Some? ==> r.value == Found(disk.nodes, codec, session, a.dir)
      ensures old(disk.Healthy()) ==> r.Some? && disk.Healthy()
    {
      hide Consistent, Tracked, Lawful;
      var p := In(a.dir, Json);
      var ok, found := disk.Read(p);
      if !ok { return None; }
      if !found { return Some(None); }
      var bytes := disk.nodes[p];
      var decoded := codec.decode(bytes);
      if decoded.None? { return Some(None); }
      var document := decoded.value;
      if document.session != session || document.dir != a.dir { return Some(None); }
      var good;
      ok, good := CheckStream(a.dir, Stdout, document.stdout);
      if !ok { return None; }
      if !good { return Some(None); }
      ok, good := CheckStream(a.dir, Stderr, document.stderr);
      if !ok { return None; }
      if !good { return Some(None); }
      r := Some(Some(PublishedOutput(document.body, ContentRef(p, |bytes|, codec.hash(bytes)), document.status,
                                     document.elapsed, codec.preview(document.body), document.stdout, document.stderr)));
    }

    /** `open`: the body a reference names, and nothing if the file is not exactly the one referred to. */
    method Open(output: ContentRef) returns (r: Option<ToolResultBody>)
      requires Valid()
      modifies disk`clock
      ensures Valid()
      ensures r.Some? ==> output.path in disk.nodes && codec.hash(disk.nodes[output.path]) == output.hash
      ensures r.Some? ==> codec.decode(disk.nodes[output.path]).Some? && r.value == codec.decode(disk.nodes[output.path]).value.body
      ensures old(disk.Healthy()) ==> disk.Healthy()
      ensures old(disk.Healthy()) && Intact(disk.nodes, codec, session, output) ==> r.Some?
    {
      hide Consistent, Tracked, Lawful;
      var ok, found := disk.Read(output.path);
      if !ok || !found { return None; }
      var bytes := disk.nodes[output.path];
      if |bytes| != output.size || codec.hash(bytes) != output.hash { return None; }
      var decoded := codec.decode(bytes);
      if decoded.None? || decoded.value.session != session { return None; }
      r := Some(decoded.value.body);
    }

    /** `interrupted`, one stream: the whole size, and where the reported tail starts. */
    method PartialTail(t: Trail, limit: nat) returns (r: Option<(nat, Bytes)>)
      modifies disk`clock
      ensures r.Some? ==> r.value.0 == |Pending(disk.nodes, t)| && r.value.1 == Tail(Pending(disk.nodes, t), limit)
      ensures old(disk.Healthy()) ==> r.Some? && disk.Healthy()
    {
      var p := In(t.dir, Partial(t.stream));
      var ok, found := disk.Read(p);
      if !ok { return None; }
      if !found { return Some((0, [])); }
      var bytes := disk.nodes[p];
      ok := disk.Touch();
      if !ok { return None; }
      return Some((|bytes|, Tail(bytes, limit)));
    }
  }

  class FileOutputWriter {
    const store: FileToolOutputStore
    const attempt: AttemptRef
    var bytes: nat

    constructor (store: FileToolOutputStore, attempt: AttemptRef)
      ensures this.store == store && this.attempt == attempt && bytes == 0
    {
      this.store, this.attempt, bytes := store, attempt, 0;
    }

    /** `stream`: a chunk goes to the end of its stream's file. What is accepted is there whole;
        what is refused may still have left a beginning of itself, and that is never counted. */
    method Stream(s: Stream, chunk: Bytes) returns (ok: bool, ghost landed: nat)
      requires store.Valid() && PlainDir(attempt.dir)
      modifies this`bytes, store`streams, store`history, store.disk`nodes, store.disk`clock
      ensures store.Valid()
      ensures landed <= |chunk| && (ok ==> landed == |chunk|)
      ensures StreamKey(attempt.dir) !in old(store.streams) ==> !ok && landed == 0 && store.streams == old(store.streams)
      ensures old(store.disk.Healthy()) ==> store.disk.Healthy() && (ok <==> StreamKey(attempt.dir) in old(store.streams))
      ensures Gained(old(store.history), store.history, Trail(attempt.dir, s), chunk[..landed])
      ensures Pending(store.disk.nodes, Trail(attempt.dir, s)) ==
              old(Pending(store.disk.nodes, Trail(attempt.dir, s))) + chunk[..landed]
      ensures OnlyFile(old(store.disk.nodes), store.disk.nodes, In(attempt.dir, Partial(s)))
      ensures bytes == old(bytes) + if ok then |chunk| else 0
      ensures CountsGrew(old(store.streams), store.streams, StreamKey(attempt.dir), s, if ok then |chunk| else 0)
      ensures ok ==> store.streams == old(store.streams)[StreamKey(attempt.dir) :=
                                        Counted(old(store.streams)[StreamKey(attempt.dir)], s, |chunk|)]
    {
      hide Consistent, Tracked, Lawful;
      var d := attempt.dir;
      assert chunk[..0] == [];
      if StreamKey(d) !in store.streams { return false, 0; }
      ok := store.OpenStream(d, s);
      if !ok { return false, 0; }
      ok, landed := store.Append(d, s, chunk);
      if ok {
        bytes := bytes + |chunk|;
      }
    }
  }

  /** One counter of an entry grew by so much, if there is an entry. */
  ghost predicate CountsGrew(before: map<string, Streams>, after: map<string, Streams>, key: string, s: Stream, n: nat) {
    key in before ==>
      && key in after
      && after[key].At(s).bytes == before[key].At(s).bytes + n
      && forall u: Stream :: u != s ==> after[key].At(u) == before[key].At(u)
  }

  function Opened(e: Streams, s: Stream): Streams {
    if e.At(s).open then e else e.With(s, Slot(true, e.At(s).bytes))
  }

  lemma EmptyFileKeeps(nodes: Nodes, h: History, c: Codec, session: string, t: Trail)
    requires Consistent(nodes, h, c, session) && In(t.dir, Partial(t.stream)) !in nodes
    ensures Consistent(nodes[In(t.dir, Partial(t.stream)) := []], h, c, session)
  {
    hide Documented;
    var after := nodes[In(t.dir, Partial(t.stream)) := []];
    DocumentedStays(nodes, h, c, session, after, h);
    forall u: Trail
      ensures Of(h.landed, u) == Flat(Pieces(h.astray, u)) + Pending(after, u)
      ensures TiedAt(after, h, u)
    {
      assert TiedAt(nodes, h, u) && Pending(after, u) == Pending(nodes, u);
    }
  }

  predicate SameFile(before: Nodes, after: Nodes, p: Path) {
    (p in after <==> p in before) && (p in before ==> after[p] == before[p])
  }

  lemma PutKeeps(before: Nodes, after: Nodes, h: History, c: Codec, session: string, d: Dir, bytes: Bytes)
    requires Consistent(before, h, c, session)
    requires || after == before || after == before[In(d, JsonPartial) := bytes]
             || exists k: nat :: after == before[In(d, JsonPartial) := Kept(bytes, k)]
    ensures Consistent(after, h, c, session)
  {
    hide Consistent;
    if after == before[In(d, JsonPartial) := bytes] {
      BystanderKeeps(before, h, c, session, In(d, JsonPartial), bytes);
    } else if after != before {
      var k: nat :| after == before[In(d, JsonPartial) := Kept(bytes, k)];
      BystanderKeeps(before, h, c, session, In(d, JsonPartial), Kept(bytes, k));
    }
  }

  // ------------------------------------------------------------ what a publish records

  function Elapsed(now: nat, started: nat): nat { if started <= now then now - started else 0 }

  ghost function PublicationOf(c: Codec, session: string, d: Dir, body: ToolResultBody, elapsed: nat,
                               e: Streams, nodes: Nodes): Publication
  {
    Publication(
      OutputDocument(OUTPUT_FORMAT_VERSION, session, d, body.status, body, elapsed,
                     Described(c, nodes, Trail(d, Stdout), e.stdout), Described(c, nodes, Trail(d, Stderr), e.stderr)),
      map s: Stream | s in {Stdout, Stderr} && e.At(s).open :: Pending(nodes, Trail(d, s)))
  }

  /** The record is about this call and this result, and its streams are the bytes then in the
      `.partial` files, at the size that was counted. */
  ghost predicate IsPublication(p: Publication, c: Codec, session: string, d: Dir, body: ToolResultBody, now: nat,
                                e: Streams, nodes: Nodes)
  {
    && p.document.session == session && p.document.dir == d
    && p.document.body == body && p.document.status == body.status
    && (if e.started <= now then p.document.elapsed == now - e.started else p.document.elapsed == 0)
    && NamesItsStreams(c, d, p)
    && forall s: Stream ::
         && (s in p.contents <==> In(d, Partial(s)) in nodes)
         && (s in p.contents ==>
               && p.contents[s] == Pending(nodes, Trail(d, s))
               && p.document.Ref(s).Some? && p.document.Ref(s).value.size == e.At(s).bytes)
  }

  lemma PublicationNames(c: Codec, session: string, d: Dir, body: ToolResultBody, elapsed: nat, e: Streams, nodes: Nodes)
    ensures NamesItsStreams(c, d, PublicationOf(c, session, d, body, elapsed, e, nodes))
  {
    var p := PublicationOf(c, session, d, body, elapsed, e, nodes);
    forall s: Stream
      ensures p.document.Ref(s).Some? <==> s in p.contents
      ensures s in p.contents ==>
                && p.document.Ref(s).value.path == In(d, Final(s))
                && p.document.Ref(s).value.hash == c.hash(p.contents[s])
    {
      assert s == Stdout || s == Stderr;
    }
  }

  lemma PublicationIs(p: Publication, c: Codec, session: string, d: Dir, body: ToolResultBody, now: nat,
                      e: Streams, nodes: Nodes)
    requires p == PublicationOf(c, session, d, body, Elapsed(now, e.started), e, nodes) && HeldBoth(e, nodes, d)
    ensures IsPublication(p, c, session, d, body, now, e, nodes)
  {
    PublicationNames(c, session, d, body, Elapsed(now, e.started), e, nodes);
    forall s: Stream
      ensures s in p.contents <==> In(d, Partial(s)) in nodes
      ensures s in p.contents ==>
                && p.contents[s] == Pending(nodes, Trail(d, s))
                && p.document.Ref(s).Some? && p.document.Ref(s).value.size == e.At(s).bytes
    {
      assert s == Stdout || s == Stderr;
    }
  }

  lemma NothingRemoved(streams: map<string, Streams>, key: string)
    requires key !in streams
    ensures streams - {key} == streams
  {
  }

  /** The file a reference names is exactly the document of this session that was referred to. */
  predicate Intact(nodes: Nodes, c: Codec, session: string, output: ContentRef) {
    && output.path in nodes
    && |nodes[output.path]| == output.size
    && c.hash(nodes[output.path]) == output.hash
    && c.decode(nodes[output.path]).Some?
    && c.decode(nodes[output.path]).value.session == session
  }

  // ------------------------------------------------------------ what a publish is worth

  function ContentOf(p: Publication, s: Stream): Bytes { if s in p.contents then p.contents[s] else [] }

  /** The bytes of a stream that its counter missed: what refused writes left behind since `begin`. */
  function Uncounted(slot: Slot, nodes: Nodes, t: Trail): (n: nat)
    requires Held(slot, nodes, t)
  {
    |Pending(nodes, t)| - slot.bytes
  }

  lemma FlatEmpty(pieces: seq<Bytes>)
    ensures Flat(pieces) == [] <==> forall piece :: piece in pieces ==> piece == []
  {
    if pieces != [] {
      var rest, last := pieces[..|pieces| - 1], pieces[|pieces| - 1];
      FlatEmpty(rest);
      assert |Flat(pieces)| == |Flat(rest)| + |last|;
      assert Flat(rest) == [] <==> |Flat(rest)| == 0;
      assert last == [] <==> |last| == 0;
      forall piece ensures piece in pieces <==> piece in rest || piece == last {
        assert pieces == rest + [last];
      }
      assert last in pieces;
    }
  }

  lemma NoTail(a: Bytes, b: Bytes)
    ensures a + b == b <==> a == []
  {
    if a == [] {
      assert a + b == b;
    } else {
      assert |a + b| > |b|;
    }
  }

  /** Main result, for an attempt without a document in place: a publish covers every file the stream was
      ever written to, over any number of processes, if and only if nothing has the stream's final name
      when it starts. Then the result gives every byte that reached the stream. Otherwise some earlier
      publish stopped between its renames; what now has the final name comes right before what the
      result gives, and is not in it. */
  lemma PublishesEverything(p: Publication, nodes: Nodes, h: History, c: Codec, session: string, d: Dir,
                            body: ToolResultBody, now: nat, e: Streams, s: Stream)
    requires Consistent(nodes, h, c, session) && IsPublication(p, c, session, d, body, now, e, nodes)
    requires In(d, Json) !in nodes
    ensures In(d, Final(s)) !in nodes <==> Pieces(h.astray, Trail(d, s)) == []
    ensures In(d, Final(s)) !in nodes ==> ContentOf(p, s) == Of(h.landed, Trail(d, s))
    ensures In(d, Final(s)) in nodes ==>
              var pieces := Pieces(h.astray, Trail(d, s));
              && Of(h.landed, Trail(d, s)) == Flat(pieces[..|pieces| - 1]) + nodes[In(d, Final(s))] + ContentOf(p, s)
              && (ContentOf(p, s) == Of(h.landed, Trail(d, s)) <==> forall piece :: piece in pieces ==> piece == [])
  {
    var pieces := Pieces(h.astray, Trail(d, s));
    assert TiedAt(nodes, h, Trail(d, s));
    assert ContentOf(p, s) == Pending(nodes, Trail(d, s));
    assert d !in h.published;
    FlatEmpty(pieces);
    NoTail(Flat(pieces), ContentOf(p, s));
  }

  /** With a document in place there is no such sign: a file that is not what the document says has gone
      astray, but a file that is may have, too. */
  lemma NotWhatTheDocumentSays(nodes: Nodes, h: History, c: Codec, session: string, d: Dir, s: Stream)
    requires Consistent(nodes, h, c, session) && d in h.published && s in h.published[d].contents
    requires In(d, Final(s)) in nodes ==> nodes[In(d, Final(s))] != h.published[d].contents[s]
    ensures Pieces(h.astray, Trail(d, s)) != []
  {
    assert TiedAt(nodes, h, Trail(d, s));
  }

  /** The same bytes again, moved by a publish that stopped: the files are as they were, the loss is not. */
  lemma FilesCannotTell(nodes: Nodes, h: History, c: Codec, session: string, d: Dir, s: Stream)
    returns (written: Nodes, h': History)
    requires Consistent(nodes, h, c, session) && d in h.published && s in h.published[d].contents
    requires h.published[d].contents[s] != []
    requires Pieces(h.astray, Trail(d, s)) == [] && In(d, Partial(s)) !in nodes
    ensures written == nodes[In(d, Partial(s)) := h.published[d].contents[s]]
    ensures Moved(written, In(d, Partial(s)), In(d, Final(s))) == nodes
    ensures h' == SetAside(Wrote(h, Trail(d, s), h.published[d].contents[s]), Trail(d, s), h.published[d].contents[s])
    ensures Consistent(nodes, h', c, session) && Flat(Pieces(h'.astray, Trail(d, s))) != []
  {
    var t, bytes := Trail(d, s), h.published[d].contents[s];
    assert TiedAt(nodes, h, t);
    written := nodes[In(d, Partial(s)) := bytes];
    assert [] + bytes == bytes;
    WriteKeeps(nodes, h, c, session, t, bytes);
    SetAsideKeeps(written, Wrote(h, t, bytes), c, session, t);
    h' := SetAside(Wrote(h, t, bytes), t, bytes);
    assert Moved(written, In(d, Partial(s)), In(d, Final(s))) == nodes;
    FlatSnoc([], bytes);
    assert [] + [bytes] == [bytes];
  }

  /** Main result: a result just published is found again if and only if its counters are right,
      that is, if no refused write left bytes behind since `begin`. */
  lemma FoundAfterPublish(p: Publication, nodes: Nodes, c: Codec, session: string, d: Dir, body: ToolResultBody,
                          now: nat, e: Streams, after: Nodes, h: History)
    requires Lawful(c) && HeldBoth(e, nodes, d) && IsPublication(p, c, session, d, body, now, e, nodes)
    requires Consistent(after, h, c, session) && d in h.published && h.published[d] == p
    requires forall s: Stream :: s in p.contents ==>
               In(d, Final(s)) in after && after[In(d, Final(s))] == p.contents[s]
    ensures Found(after, c, session, d) ==
            if Uncounted(e.stdout, nodes, Trail(d, Stdout)) == 0 && Uncounted(e.stderr, nodes, Trail(d, Stderr)) == 0
            then Some(ResultOf(c, p.document)) else None
  {
    FindsExactlyWhatWasPublished(after, h, c, session, d);
    assert e.At(Stdout) == e.stdout && e.At(Stderr) == e.stderr;
    assert Stdout in p.contents <==> In(d, Partial(Stdout)) in nodes;
    assert Stderr in p.contents <==> In(d, Partial(Stderr)) in nodes;
    if Uncounted(e.stdout, nodes, Trail(d, Stdout)) == 0 && Uncounted(e.stderr, nodes, Trail(d, Stderr)) == 0 {
      forall s: Stream | s in p.contents
        ensures p.document.Ref(s).value.size == |p.contents[s]|
      {
        assert s == Stdout || s == Stderr;
      }
    } else if Uncounted(e.stdout, nodes, Trail(d, Stdout)) != 0 {
      assert p.document.Ref(Stdout).value.size != |p.contents[Stdout]|;
    } else {
      assert p.document.Ref(Stderr).value.size != |p.contents[Stderr]|;
    }
  }

  /** A reference that a publish returned opens to the body that was published, as long as
      no later publish of the attempt has replaced the document. */
  lemma OpensToWhatWasPublished(nodes: Nodes, h: History, c: Codec, session: string, d: Dir)
    requires Lawful(c) && Consistent(nodes, h, c, session) && d in h.published
    ensures var output := ResultOf(c, h.published[d].document).output;
            && Intact(nodes, c, session, output)
            && c.decode(nodes[output.path]).value.body == h.published[d].document.body
  {
    assert Recorded(nodes, c, session, d, h.published[d]);
  }

  // ------------------------------------------------------------ diagnosis

  function AfterNewline(b: Bytes): Bytes
  {
    if b == [] then [] else if b[0] == 0x0A then b[1..] else AfterNewline(b[1..])
  }

  /** At most the last `limit` bytes, from the start of a line if a whole line start is among them. */
  function Tail(b: Bytes, limit: nat): Bytes {
    var start := if |b| <= limit then 0 else |b| - limit;
    var tail := b[start..];
    if start > 0 && AfterNewline(tail) != [] then AfterNewline(tail) else tail
  }

  lemma {:induction false} AfterNewlineStarts(b: Bytes)
    requires AfterNewline(b) != []
    ensures |AfterNewline(b)| < |b| && AfterNewline(b) == b[|b| - |AfterNewline(b)|..]
    ensures b[|b| - |AfterNewline(b)| - 1] == 0x0A
    ensures 0x0A !in b[..|b| - |AfterNewline(b)| - 1]
  {
    if b[0] == 0x0A {
    } else {
      AfterNewlineStarts(b[1..]);
      assert b[..|b| - |AfterNewline(b)| - 1] == [b[0]] + b[1..][..|b[1..]| - |AfterNewline(b)| - 1];
    }
  }

  /** The reported tail is the end of the file and within the limit. It is cut short of the limit
      only to start on a line, and then no line that starts inside the limit is left out. */
  lemma TailIsTheEnd(b: Bytes, limit: nat)
    ensures |Tail(b, limit)| <= limit && |Tail(b, limit)| <= |b|
    ensures Tail(b, limit) == b[|b| - |Tail(b, limit)|..]
    ensures |b| <= limit ==> Tail(b, limit) == b
    ensures |Tail(b, limit)| < limit < |b| ==>
              && b[|b| - |Tail(b, limit)| - 1] == 0x0A
              && 0x0A !in b[|b| - limit..|b| - |Tail(b, limit)| - 1]
  {
    if limit < |b| {
      var tail := b[|b| - limit..];
      if AfterNewline(tail) != [] {
        AfterNewlineStarts(tail);
        assert b[|b| - limit..|b| - |Tail(b, limit)| - 1] == tail[..|tail| - |AfterNewline(tail)| - 1];
      }
    }
  }

  /** The part of a chunk that a torn write leaves behind. */
  function Kept(chunk: Bytes, k: nat): Bytes {
    if k < |chunk| then chunk[..k] else chunk
  }

  lemma EntryHeld(streams: map<string, Streams>, nodes: Nodes, d: Dir)
    requires Tracked(streams, nodes) && PlainDir(d) && StreamKey(d) in streams
    ensures HeldBoth(streams[StreamKey(d)], nodes, d)
  {
  }

  function Counted(e: Streams, s: Stream, n: nat): Streams {
    e.With(s, Slot(true, e.At(s).bytes + n))
  }

  ghost predicate OnlyFile(before: Nodes, after: Nodes, p: Path) {
    forall q: Path :: q != p ==> (q in after <==> q in before) && (q in before ==> after[q] == before[q])
  }

  /** How much of the chunk is in the file after the write. */
  ghost function Landed(before: Nodes, after: Nodes, p: Path, content: Bytes, chunk: Bytes, ok: bool): (n: nat)
    requires p in before && before[p] == content
    requires ok ==> after == before[p := content + chunk]
    requires !ok ==> after == before || exists k: nat :: after == before[p := content + Kept(chunk, k)]
    ensures n <= |chunk| && after == before[p := content + chunk[..n]] && (ok ==> n == |chunk|)
  {
    if ok then
      assert chunk[..|chunk|] == chunk;
      |chunk|
    else if after == before then
      assert content + chunk[..0] == content;
      assert before[p := content] == before;
      0
    else
      var k: nat :| after == before[p := content + Kept(chunk, k)];
      assert chunk[..|chunk|] == chunk;
      if k < |chunk| then k else |chunk|
  }

  // ------------------------------------------------------------ how far a publish gets

  /** One stream: nothing happened, or its file moved to its final name and is out of reach of `begin`. */
  ghost predicate StreamStep(before: Nodes, h: History, after: Nodes, h': History, t: Trail) {
    var from := In(t.dir, Partial(t.stream));
    || (after == before && h' == h)
    || (from in before && after == Moved(before, from, In(t.dir, Final(t.stream))) && h' == SetAside(h, t, before[from]))
  }

  /** The stream's file is where it was, and as it was. */
  predicate Stays(before: Nodes, after: Nodes, d: Dir, s: Stream) {
    SameFile(before, after, In(d, Partial(s))) && SameFile(before, after, In(d, Final(s)))
  }

  /** The stream's file has moved to its final name, whole. */
  predicate Went(before: Nodes, after: Nodes, d: Dir, s: Stream) {
    && In(d, Partial(s)) in before && In(d, Partial(s)) !in after
    && In(d, Final(s)) in after && after[In(d, Final(s))] == before[In(d, Partial(s))]
  }

  ghost predicate OthersSame(h: History, h': History, d: Dir) {
    forall t: Trail :: t.dir != d ==> Of(h'.landed, t) == Of(h.landed, t) && Pieces(h'.astray, t) == Pieces(h.astray, t)
  }

  ghost predicate Ended(before: Nodes, h: History, after: Nodes, h': History, d: Dir, s: Stream) {
    || (Stays(before, after, d, s) && Pieces(h'.astray, Trail(d, s)) == Pieces(h.astray, Trail(d, s)))
    || (Went(before, after, d, s)
        && Pieces(h'.astray, Trail(d, s)) == Pieces(h.astray, Trail(d, s)) + [before[In(d, Partial(s))]])
  }

  /** A publish that put no document in place: no byte is gone, and what has gone astray is exactly what moved. */
  ghost predicate Stopped(before: Nodes, h: History, after: Nodes, h': History, d: Dir) {
    && h'.published == h.published && h'.landed == h.landed && OthersSame(h, h', d)
    && SameFile(before, after, In(d, Json))
    && forall s: Stream :: Ended(before, h, after, h', d, s)
  }

  /** A publish that put its document in place: every stream has moved, and the attempt starts afresh. */
  ghost predicate Done(before: Nodes, h: History, after: Nodes, h': History, d: Dir, p: Publication) {
    && h'.published == h.published[d := p] && OthersSame(h, h', d)
    && forall s: Stream ::
         && Of(h'.landed, Trail(d, s)) == [] && Pieces(h'.astray, Trail(d, s)) == []
         && if In(d, Partial(s)) in before then Went(before, after, d, s) else Stays(before, after, d, s)
  }

  lemma StoppedAtOnce(nodes: Nodes, h: History, d: Dir)
    ensures Stopped(nodes, h, nodes, h, d)
  {
  }

  /** What one step does to the other stream and to the rest. */
  lemma StepIsAlone(before: Nodes, h: History, after: Nodes, h': History, t: Trail)
    requires StreamStep(before, h, after, h', t)
    ensures Ended(before, h, after, h', t.dir, t.stream)
    ensures forall s: Stream :: s != t.stream ==>
              Stays(before, after, t.dir, s) && Pieces(h'.astray, Trail(t.dir, s)) == Pieces(h.astray, Trail(t.dir, s))
    ensures h'.published == h.published && h'.landed == h.landed && OthersSame(h, h', t.dir)
    ensures SameFile(before, after, In(t.dir, Json)) && Elsewhere(before, after, t.dir)
  {
  }

  lemma FirstStep(before: Nodes, h: History, after: Nodes, h': History, d: Dir)
    requires StreamStep(before, h, after, h', Trail(d, Stdout))
    ensures Stopped(before, h, after, h', d) && Elsewhere(before, after, d)
  {
    hide StreamStep;
    StepIsAlone(before, h, after, h', Trail(d, Stdout));
  }

  lemma StderrHeld(before: Nodes, h: History, after: Nodes, h': History, d: Dir, e: Streams)
    requires StreamStep(before, h, after, h', Trail(d, Stdout)) && HeldBoth(e, before, d)
    ensures Held(e.stderr, after, Trail(d, Stderr))
    ensures Pending(after, Trail(d, Stderr)) == Pending(before, Trail(d, Stderr))
  {
  }

  lemma BothSteps(before: Nodes, h: History, between: Nodes, h1: History, after: Nodes, h2: History, d: Dir)
    requires StreamStep(before, h, between, h1, Trail(d, Stdout)) && StreamStep(between, h1, after, h2, Trail(d, Stderr))
    ensures Stopped(before, h, after, h2, d) && Elsewhere(before, after, d)
    ensures SameFile(between, after, In(d, Partial(Stdout)))
  {
    hide StreamStep;
    StepIsAlone(before, h, between, h1, Trail(d, Stdout));
    StepIsAlone(between, h1, after, h2, Trail(d, Stderr));
    forall s: Stream
      ensures Ended(before, h, after, h2, d, s)
    {
      assert s == Stdout || s == Stderr;
    }
  }

  /** With no stream left behind, the streams the record names are under their final names. */
  lemma StreamsInPlace(before: Nodes, h: History, between: Nodes, h1: History, d: Dir, p: Publication)
    requires Stopped(before, h, between, h1, d) && forall s: Stream :: In(d, Partial(s)) !in between
    requires forall s: Stream :: s in p.contents ==> In(d, Partial(s)) in before && p.contents[s] == before[In(d, Partial(s))]
    ensures forall s: Stream :: s in p.contents ==> In(d, Final(s)) in between && between[In(d, Final(s))] == p.contents[s]
  {
    forall s: Stream | s in p.contents
      ensures In(d, Final(s)) in between && between[In(d, Final(s))] == p.contents[s]
    {
      assert Ended(before, h, between, h1, d, s);
    }
  }

  lemma StoppedOrDone(before: Nodes, h: History, between: Nodes, h1: History, after: Nodes, h2: History, d: Dir,
                      p: Publication, done: bool)
    requires Stopped(before, h, between, h1, d) && forall s: Stream :: In(d, Partial(s)) !in between
    requires h2 == if done then Published(h1, d, p) else h1
    requires forall s: Stream :: In(d, Partial(s)) !in after && SameFile(between, after, In(d, Final(s)))
    requires !done ==> SameFile(between, after, In(d, Json))
    ensures if done then Done(before, h, after, h2, d, p) else Stopped(before, h, after, h2, d)
  {
    forall s: Stream
      ensures if In(d, Partial(s)) in before then Went(before, after, d, s) else Stays(before, after, d, s)
    {
      assert Ended(before, h, between, h1, d, s);
    }
    if done {
      forall s: Stream
        ensures Of(h2.landed, Trail(d, s)) == [] && Pieces(h2.astray, Trail(d, s)) == []
      {
        assert s == Stdout || s == Stderr;
      }
    } else {
      forall s: Stream ensures Ended(before, h, after, h2, d, s) {
        assert Ended(before, h, between, h1, d, s);
      }
    }
  }

  ghost function Described(c: Codec, nodes: Nodes, t: Trail, slot: Slot): Option<ContentRef> {
    if slot.open then Some(ContentRef(In(t.dir, Final(t.stream)), slot.bytes, c.hash(Pending(nodes, t)))) else None
  }

  /** A new folder leaves every open stream alone. */
  lemma UntouchedStays(streams: map<string, Streams>, before: Nodes, after: Nodes, d: Dir)
    requires Tracked(streams, before) && PlainDir(d)
    requires after == before || after == before[Folder(d) := []]
    ensures Tracked(streams, after)
  {
    if StreamKey(d) in streams {
      assert HeldBoth(streams[StreamKey(d)], before, d);
    }
    TrackedAfter(streams, before, streams, after, d);
  }
}
