/** Whole histories over the output store.

    `Attempt` is any history of one stream of one attempt: process after process takes over what the
    last one left and writes chunks, with the disk failing wherever it likes and the process dying
    wherever it likes, until one of them publishes. `AnyUse` is any use of the store at all, from an
    empty disk on. */
module ToolOutputLives {
  import opened Files
  import opened OutputHistory
  import opened Text
  import opened ToolOutput

  // ------------------------------------------------------------ chunks and what became of them

  /** Each chunk was accepted, and then it reached the file whole, or refused, and then a beginning of it did. */
  predicate Outcome(chunks: seq<Bytes>, accepted: seq<bool>, landed: seq<nat>) {
    && |accepted| == |landed| == |chunks|
    && forall i :: 0 <= i < |chunks| ==> landed[i] <= |chunks[i]| && (accepted[i] ==> landed[i] == |chunks[i]|)
  }

  /** The accepted chunks, one after another. */
  function AcceptedOf(chunks: seq<Bytes>, accepted: seq<bool>): Bytes
    requires |accepted| == |chunks|
  {
    if chunks == [] then []
    else
      var n := |chunks| - 1;
      AcceptedOf(chunks[..n], accepted[..n]) + if accepted[n] then chunks[n] else []
  }

  /** What reached the file, one piece after another. */
  function LandedOf(chunks: seq<Bytes>, landed: seq<nat>): Bytes
    requires |landed| == |chunks|
  {
    if chunks == [] then []
    else
      var n := |chunks| - 1;
      LandedOf(chunks[..n], landed[..n]) + Kept(chunks[n], landed[n])
  }

  predicate AllTrue(accepted: seq<bool>) {
    forall i :: 0 <= i < |accepted| ==> accepted[i]
  }

  /** No refused write left anything behind. */
  predicate Clean(accepted: seq<bool>, landed: seq<nat>) {
    forall i :: 0 <= i < |accepted| && i < |landed| && !accepted[i] ==> landed[i] == 0
  }

  lemma {:induction false} CleanMeansAccepted(chunks: seq<Bytes>, accepted: seq<bool>, landed: seq<nat>)
    requires Outcome(chunks, accepted, landed)
    ensures |AcceptedOf(chunks, accepted)| <= |LandedOf(chunks, landed)|
    ensures |AcceptedOf(chunks, accepted)| == |LandedOf(chunks, landed)| <==> Clean(accepted, landed)
    ensures Clean(accepted, landed) ==> LandedOf(chunks, landed) == AcceptedOf(chunks, accepted)
  {
    if chunks != [] {
      var n := |chunks| - 1;
      CleanMeansAccepted(chunks[..n], accepted[..n], landed[..n]);
      assert Clean(accepted, landed) <==> Clean(accepted[..n], landed[..n]) && (!accepted[n] ==> landed[n] == 0);
    }
  }

  lemma OneMore(chunks: seq<Bytes>, i: nat, accepted: seq<bool>, landed: seq<nat>, ok: bool, n: nat)
    requires i < |chunks| && Outcome(chunks[..i], accepted, landed)
    requires n <= |chunks[i]| && (ok ==> n == |chunks[i]|)
    ensures Outcome(chunks[..i + 1], accepted + [ok], landed + [n])
    ensures AcceptedOf(chunks[..i + 1], accepted + [ok]) == AcceptedOf(chunks[..i], accepted) + if ok then chunks[i] else []
    ensures LandedOf(chunks[..i + 1], landed + [n]) == LandedOf(chunks[..i], landed) + chunks[i][..n]
  {
    assert chunks[..i + 1][..i] == chunks[..i];
    assert (accepted + [ok])[..i] == accepted && (landed + [n])[..i] == landed;
    assert n == |chunks[i]| ==> chunks[i][..n] == chunks[i];
  }

  lemma Assoc(a: Bytes, b: Bytes, c: Bytes)
    ensures (a + b) + c == a + (b + c)
  {
  }

  // ------------------------------------------------------------ one process

  /** One process writes its chunks. A refused chunk ends nothing: the caller may go on. */
  method WriteAll(writer: FileOutputWriter, s: Stream, chunks: seq<Bytes>) returns (accepted: seq<bool>, ghost landed: seq<nat>)
    requires writer.store.Valid() && PlainDir(writer.attempt.dir) && StreamKey(writer.attempt.dir) in writer.store.streams
    modifies writer`bytes, writer.store`streams, writer.store`history
    modifies writer.store.disk`nodes, writer.store.disk`clock
    ensures writer.store.Valid()
    ensures Outcome(chunks, accepted, landed)
    ensures Pending(writer.store.disk.nodes, Trail(writer.attempt.dir, s)) ==
            old(Pending(writer.store.disk.nodes, Trail(writer.attempt.dir, s))) + LandedOf(chunks, landed)
    ensures OnlyFile(old(writer.store.disk.nodes), writer.store.disk.nodes, In(writer.attempt.dir, Partial(s)))
    ensures CountsGrew(old(writer.store.streams), writer.store.streams, StreamKey(writer.attempt.dir), s,
                       |AcceptedOf(chunks, accepted)|)
    ensures writer.store.history.published == old(writer.store.history.published)
    ensures old(writer.store.disk.Healthy()) ==>
              writer.store.disk.Healthy() && AllTrue(accepted)
  {
    hide Consistent, Tracked, Lawful, AcceptedOf, LandedOf, CountsGrew, OnlyFile, Gained;
    accepted, landed := [], [];
    NoChunks(chunks);
    NothingGrew(writer.store.streams, StreamKey(writer.attempt.dir), s, writer.store.disk.nodes, In(writer.attempt.dir, Partial(s)));
    var store := writer.store;
    var d := writer.attempt.dir;
    ghost var file := Pending(store.disk.nodes, Trail(d, s));
    assert file + [] == file;
    for i := 0 to |chunks|
      invariant store.Valid()
      invariant Outcome(chunks[..i], accepted, landed)
      invariant Pending(store.disk.nodes, Trail(d, s)) == file + LandedOf(chunks[..i], landed)
      invariant OnlyFile(old(store.disk.nodes), store.disk.nodes, In(d, Partial(s)))
      invariant StreamKey(d) in store.streams
      invariant CountsGrew(old(store.streams), store.streams, StreamKey(d), s, |AcceptedOf(chunks[..i], accepted)|)
      invariant store.history.published == old(store.history.published)
      invariant old(store.disk.Healthy()) ==> store.disk.Healthy() && AllTrue(accepted)
    {
      label before:
      ghost var sofar, count := LandedOf(chunks[..i], landed), |AcceptedOf(chunks[..i], accepted)|;
      ghost var streams, nodes := store.streams, store.disk.nodes;
      var ok;
      ghost var n;
      ok, n := writer.Stream(s, chunks[i]);
      GrewTwice(old(store.streams), streams, store.streams, StreamKey(d), s, count, if ok then |chunks[i]| else 0);
      OnlyTwice(old(store.disk.nodes), nodes, store.disk.nodes, In(d, Partial(s)));
      GainedPublishes(old@before(store.history), store.history, Trail(d, s), chunks[i][..n]);
      OneMore(chunks, i, accepted, landed, ok, n);
      Assoc(file, sofar, chunks[i][..n]);
      accepted, landed := accepted + [ok], landed + [n];
    }
    assert chunks[..|chunks|] == chunks;
  }

  lemma NothingGrew(streams: map<string, Streams>, key: string, s: Stream, nodes: Nodes, p: Path)
    ensures CountsGrew(streams, streams, key, s, 0) && OnlyFile(nodes, nodes, p)
  {
  }

  lemma GrewTwice(a: map<string, Streams>, b: map<string, Streams>, c: map<string, Streams>, key: string, s: Stream, m: nat, n: nat)
    requires CountsGrew(a, b, key, s, m) && CountsGrew(b, c, key, s, n)
    ensures CountsGrew(a, c, key, s, m + n) && (key in b ==> key in c)
  {
  }

  lemma OnlyTwice(a: Nodes, b: Nodes, c: Nodes, p: Path)
    requires OnlyFile(a, b, p) && OnlyFile(b, c, p)
    ensures OnlyFile(a, c, p)
  {
  }

  lemma GainedPublishes(h: History, h': History, t: Trail, bytes: Bytes)
    requires Gained(h, h', t, bytes)
    ensures h'.published == h.published
  {
  }

  lemma NoChunks(chunks: seq<Bytes>)
    ensures Outcome(chunks[..0], [], []) && LandedOf(chunks[..0], []) == [] && AcceptedOf(chunks[..0], []) == []
  {
  }

  lemma {:induction false} NothingWritten(chunks: seq<Bytes>)
    ensures Outcome(chunks, seq(|chunks|, i => false), seq(|chunks|, i => 0))
    ensures LandedOf(chunks, seq(|chunks|, i => 0)) == [] && AcceptedOf(chunks, seq(|chunks|, i => false)) == []
  {
    if chunks != [] {
      var n := |chunks| - 1;
      NothingWritten(chunks[..n]);
      assert seq(|chunks|, i => 0)[..n] == seq(n, i => 0);
      assert seq(|chunks|, i => false)[..n] == seq(n, i => false);
    }
  }

  /** One process: takes over what is there, then writes. Without a successful `begin` it writes nothing. */
  method Life(store: FileToolOutputStore, a: AttemptRef, s: Stream, chunks: seq<Bytes>)
    returns (begun: bool, accepted: seq<bool>, ghost landed: seq<nat>)
    requires store.Valid() && PlainDir(a.dir) && store.streams == map[] && a.session == store.session
    modifies store`streams, store`history, store.disk`nodes, store.disk`clock
    ensures store.Valid()
    ensures Outcome(chunks, accepted, landed) && |accepted| == |landed| == |chunks|
    ensures Pending(store.disk.nodes, Trail(a.dir, s)) == old(Pending(store.disk.nodes, Trail(a.dir, s))) + LandedOf(chunks, landed)
    ensures begun ==> StreamKey(a.dir) in store.streams
    ensures begun ==> forall u: Stream ::
              store.streams[StreamKey(a.dir)].At(u).bytes
              + (if u == s then |LandedOf(chunks, landed)| - |AcceptedOf(chunks, accepted)| else 0) ==
              |Pending(store.disk.nodes, Trail(a.dir, u))|
    ensures store.history.published == old(store.history.published)
    ensures old(store.disk.Healthy()) ==> store.disk.Healthy() && begun && AllTrue(accepted)
  {
    hide Consistent, Tracked, Lawful, AcceptedOf, LandedOf;
    ghost var before := Pending(store.disk.nodes, Trail(a.dir, s));
    assert before + [] == before;
    begun := store.Begin(a, 0);
    if !begun {
      NothingWritten(chunks);
      return false, seq(|chunks|, i => false), seq(|chunks|, i => 0);
    }
    ghost var e := store.streams[StreamKey(a.dir)];
    forall u: Stream ensures e.At(u) == Adopted(store.disk.nodes, Trail(a.dir, u)) {
      assert u == Stdout || u == Stderr;
    }
    var writer := new FileOutputWriter(store, a);
    accepted, landed := WriteAll(writer, s, chunks);
  }

  // ------------------------------------------------------------ one attempt

  predicate Outcomes(lives: seq<seq<Bytes>>, accepted: seq<seq<bool>>, landed: seq<seq<nat>>) {
    && |accepted| == |landed| == |lives|
    && forall i :: 0 <= i < |lives| ==> Outcome(lives[i], accepted[i], landed[i])
  }

  function AllLanded(lives: seq<seq<Bytes>>, accepted: seq<seq<bool>>, landed: seq<seq<nat>>): Bytes
    requires Outcomes(lives, accepted, landed)
  {
    if lives == [] then []
    else
      var n := |lives| - 1;
      AllLanded(lives[..n], accepted[..n], landed[..n]) + LandedOf(lives[n], landed[n])
  }

  function AllAccepted(lives: seq<seq<Bytes>>, accepted: seq<seq<bool>>, landed: seq<seq<nat>>): Bytes
    requires Outcomes(lives, accepted, landed)
  {
    if lives == [] then []
    else
      var n := |lives| - 1;
      AllAccepted(lives[..n], accepted[..n], landed[..n]) + AcceptedOf(lives[n], accepted[n])
  }

  lemma OneMoreLife(lives: seq<seq<Bytes>>, i: nat, accepted: seq<seq<bool>>, landed: seq<seq<nat>>, ok: seq<bool>, n: seq<nat>)
    requires i < |lives| && Outcomes(lives[..i], accepted, landed) && Outcome(lives[i], ok, n)
    ensures Outcomes(lives[..i + 1], accepted + [ok], landed + [n])
    ensures AllLanded(lives[..i + 1], accepted + [ok], landed + [n]) == AllLanded(lives[..i], accepted, landed) + LandedOf(lives[i], n)
  {
    assert lives[..i + 1][..i] == lives[..i];
    assert (accepted + [ok])[..i] == accepted && (landed + [n])[..i] == landed;
  }

  lemma {:induction false} CleanLives(lives: seq<seq<Bytes>>, accepted: seq<seq<bool>>, landed: seq<seq<nat>>)
    requires Outcomes(lives, accepted, landed) && forall i :: 0 <= i < |lives| ==> Clean(accepted[i], landed[i])
    ensures AllLanded(lives, accepted, landed) == AllAccepted(lives, accepted, landed)
  {
    if lives != [] {
      var n := |lives| - 1;
      CleanLives(lives[..n], accepted[..n], landed[..n]);
      CleanMeansAccepted(lives[n], accepted[n], landed[n]);
    }
  }

  /** Process after process, each over what the last one left; none publishes. */
  method Lives(disk: Disk<Path, Bytes>, codec: Codec, a: AttemptRef, s: Stream, lives: seq<seq<Bytes>>, ghost history: History)
    returns (accepted: seq<seq<bool>>, ghost landed: seq<seq<nat>>, ghost history': History)
    requires Lawful(codec) && PlainDir(a.dir) && Consistent(disk.nodes, history, codec, a.session)
    modifies disk`nodes, disk`clock
    ensures Consistent(disk.nodes, history', codec, a.session)
    ensures Outcomes(lives, accepted, landed)
    ensures Pending(disk.nodes, Trail(a.dir, s)) == old(Pending(disk.nodes, Trail(a.dir, s))) + AllLanded(lives, accepted, landed)
    ensures old(disk.Healthy()) ==>
              disk.Healthy() && forall i :: 0 <= i < |lives| ==> AllTrue(accepted[i])
  {
    hide Consistent, Tracked, Lawful, AcceptedOf, LandedOf, AllLanded, Clean, Pending, Outcome;
    accepted, landed, history' := [], [], history;
    ghost var first := Pending(disk.nodes, Trail(a.dir, s));
    NoLives(lives);
    assert first + [] == first;
    for i := 0 to |lives|
      invariant Consistent(disk.nodes, history', codec, a.session)
      invariant Outcomes(lives[..i], accepted, landed)
      invariant Pending(disk.nodes, Trail(a.dir, s)) == first + AllLanded(lives[..i], accepted, landed)
      invariant old(disk.Healthy()) ==>
                  disk.Healthy() && forall k :: 0 <= k < i ==> AllTrue(accepted[k])
    {
      var store := new FileToolOutputStore(a.session, codec, disk, history');
      var begun, ok;
      ghost var n;
      begun, ok, n := Life(store, a, s, lives[i]);
      ghost var sofar := AllLanded(lives[..i], accepted, landed);
      Assoc(first, sofar, LandedOf(lives[i], n));
      OneMoreLife(lives, i, accepted, landed, ok, n);
      accepted, landed := accepted + [ok], landed + [n];
      history' := store.history;
      assert store.Valid();
    }
    assert lives[..|lives|] == lives;
  }

  /** Main result: however often the process dies between `begin` and `publish`, the published stream is
      what was there before followed by what reached the file of every chunk of every process, in order;
      and so by exactly the accepted chunks, if no refused write left anything. The recorded size is the
      length, and the result is found again, if and only if no refused write of the last process left
      anything: `begin` counts what earlier ones left. A healthy disk accepts everything and publishes. */
  method Attempt(disk: Disk<Path, Bytes>, codec: Codec, a: AttemptRef, s: Stream, lives: seq<seq<Bytes>>,
                 body: ToolResultBody, ghost history: History)
    returns (r: Option<PublishedOutput>, accepted: seq<seq<bool>>, ghost landed: seq<seq<nat>>,
             ghost p: Publication, ghost history': History)
    requires Lawful(codec) && PlainDir(a.dir) && Consistent(disk.nodes, history, codec, a.session) && |lives| > 0
    modifies disk`nodes, disk`clock
    ensures Consistent(disk.nodes, history', codec, a.session)
    ensures Outcomes(lives, accepted, landed)
    ensures r.Some? ==> a.dir in history'.published && history'.published[a.dir] == p
    ensures r.Some? ==> r.value == ResultOf(codec, p.document) && p.document.body == body
    ensures r.Some? ==> ContentOf(p, s) == old(Pending(disk.nodes, Trail(a.dir, s))) + AllLanded(lives, accepted, landed)
    ensures r.Some? && (forall i :: 0 <= i < |lives| ==> Clean(accepted[i], landed[i])) ==>
              ContentOf(p, s) == old(Pending(disk.nodes, Trail(a.dir, s))) + AllAccepted(lives, accepted, landed)
    ensures r.Some? && s in p.contents ==>
              p.document.Ref(s).Some? &&
              (p.document.Ref(s).value.size == |ContentOf(p, s)| <==> Clean(accepted[|lives| - 1], landed[|lives| - 1]))
    ensures r.Some? ==> Found(disk.nodes, codec, a.session, a.dir) ==
                        if Clean(accepted[|lives| - 1], landed[|lives| - 1]) then r else None
    ensures old(disk.Healthy()) ==>
              r.Some? && forall i :: 0 <= i < |lives| ==> AllTrue(accepted[i])
  {
    hide Consistent, Tracked, Lawful, IsPublication, AcceptedOf, LandedOf, AllLanded, AllAccepted, Clean, Found, Pending, Outcome;
    var m := |lives| - 1;
    ghost var first := Pending(disk.nodes, Trail(a.dir, s));
    accepted, landed, history' := Lives(disk, codec, a, s, lives[..m], history);
    var store := new FileToolOutputStore(a.session, codec, disk, history');
    var ok;
    ghost var n;
    r, ok, n, p := LastLife(store, a, s, lives[m], body);
    ghost var sofar := AllLanded(lives[..m], accepted, landed);
    Assoc(first, sofar, LandedOf(lives[m], n));
    OneMoreLife(lives, m, accepted, landed, ok, n);
    accepted, landed := accepted + [ok], landed + [n];
    assert lives[..m + 1] == lives;
    if forall i :: 0 <= i < |lives| ==> Clean(accepted[i], landed[i]) {
      CleanLives(lives, accepted, landed);
    }
    history' := store.history;
    assert store.Valid();
  }

  /** The process that publishes. */
  method LastLife(store: FileToolOutputStore, a: AttemptRef, s: Stream, chunks: seq<Bytes>, body: ToolResultBody)
    returns (r: Option<PublishedOutput>, accepted: seq<bool>, ghost landed: seq<nat>, ghost p: Publication)
    requires store.Valid() && PlainDir(a.dir) && store.streams == map[] && a.session == store.session
    modifies store`streams, store`history, store.disk`nodes, store.disk`clock
    ensures store.Valid()
    ensures Outcome(chunks, accepted, landed) && |accepted| == |landed| == |chunks|
    ensures r.Some? ==> a.dir in store.history.published && store.history.published[a.dir] == p
    ensures r.Some? ==> r.value == ResultOf(store.codec, p.document) && p.document.body == body
    ensures r.Some? ==> ContentOf(p, s) == old(Pending(store.disk.nodes, Trail(a.dir, s))) + LandedOf(chunks, landed)
    ensures r.Some? && s in p.contents ==>
              p.document.Ref(s).Some? && (p.document.Ref(s).value.size == |ContentOf(p, s)| <==> Clean(accepted, landed))
    ensures r.Some? ==> Found(store.disk.nodes, store.codec, a.session, a.dir) == if Clean(accepted, landed) then r else None
    ensures old(store.disk.Healthy()) ==> r.Some? && AllTrue(accepted)
  {
    hide Consistent, Tracked, Lawful, AcceptedOf, LandedOf, Clean, Found;
    var begun;
    begun, accepted, landed := Life(store, a, s, chunks);
    CleanMeansAccepted(chunks, accepted, landed);
    if begun {
      r, p := PublishAndLook(store, a, s, body, |LandedOf(chunks, landed)| - |AcceptedOf(chunks, accepted)|);
    } else {
      r, p := None, Publication(OutputDocument(0, "", a.dir, body.status, body, 0, None, None), map[]);
    }
  }

  lemma NoLives(lives: seq<seq<Bytes>>)
    ensures Outcomes(lives[..0], [], []) && AllLanded(lives[..0], [], []) == []
  {
  }

  method PublishAndLook(store: FileToolOutputStore, a: AttemptRef, s: Stream, body: ToolResultBody, ghost missed: nat)
    returns (r: Option<PublishedOutput>, ghost p: Publication)
    requires store.Valid() && PlainDir(a.dir) && a.session == store.session && StreamKey(a.dir) in store.streams
    requires forall u: Stream :: store.streams[StreamKey(a.dir)].At(u).bytes + (if u == s then missed else 0) ==
                                 |Pending(store.disk.nodes, Trail(a.dir, u))|
    modifies store`streams, store`history, store.disk`nodes, store.disk`clock
    ensures store.Valid()
    ensures r.Some? ==> a.dir in store.history.published && store.history.published[a.dir] == p
    ensures r.Some? ==> r.value == ResultOf(store.codec, p.document) && p.document.body == body
    ensures r.Some? ==> ContentOf(p, s) == old(Pending(store.disk.nodes, Trail(a.dir, s)))
    ensures r.Some? && s in p.contents ==>
              p.document.Ref(s).Some? && p.document.Ref(s).value.size + missed == |ContentOf(p, s)|
    ensures r.Some? ==> Found(store.disk.nodes, store.codec, a.session, a.dir) == if missed == 0 then r else None
    ensures old(store.disk.Healthy()) ==> store.disk.Healthy() && r.Some?
  {
    hide Consistent, Tracked, Lawful, Found, Stopped;
    ghost var e, before := store.streams[StreamKey(a.dir)], store.disk.nodes;
    EntryHeld(store.streams, before, a.dir);
    ghost var done;
    r, p, done := store.Publish(a, body, 0);
    if r.Some? {
      FoundAfterPublish(p, before, store.codec, a.session, a.dir, body, 0, e, store.disk.nodes, store.history);
      assert e.At(Stdout) == e.stdout && e.At(Stderr) == e.stderr;
      assert ContentOf(p, s) == Pending(before, Trail(a.dir, s));
    }
  }

  // ------------------------------------------------------------ any use

  datatype Use =
    | ToBegin(a: AttemptRef)
    | ToWrite(dir: Dir, stream: Stream, chunk: Bytes)
    | ToPublish(dir: Dir, body: ToolResultBody)
    | ToRestart

  predicate UsePlain(use: Use) {
    match use
    case ToBegin(a) => PlainDir(a.dir)
    case ToWrite(d, _, _) => PlainDir(d)
    case ToPublish(d, _) => PlainDir(d)
    case ToRestart => true
  }

  // What a store of which nothing ever fails should hold: the attempts begun, what was written to each of
  // their streams since, and the results published.

  datatype Entry = Entry(body: ToolResultBody, stdout: Bytes, stderr: Bytes)

  datatype Book = Book(open: set<Dir>, part: map<Trail, Bytes>, published: map<Dir, Entry>)

  const BLANK := Book({}, map[], map[])

  function Next(b: Book, session: string, use: Use): Book {
    match use
    case ToBegin(a) => if a.session == session then b.(open := b.open + {a.dir}) else b
    case ToWrite(d, s, chunk) =>
      if d in b.open then b.(part := b.part[Trail(d, s) := Of(b.part, Trail(d, s)) + chunk]) else b
    case ToPublish(d, body) =>
      if d in b.open
      then Book(b.open - {d}, b.part[Trail(d, Stdout) := []][Trail(d, Stderr) := []],
                b.published[d := Entry(body, Of(b.part, Trail(d, Stdout)), Of(b.part, Trail(d, Stderr)))])
      else b
    case ToRestart => b.(open := {})
  }

  function Books(session: string, uses: seq<Use>): Book {
    if uses == [] then BLANK else Next(Books(session, uses[..|uses| - 1]), session, uses[|uses| - 1])
  }

  ghost predicate OpenOk(b: Book, streams: map<string, Streams>, nodes: Nodes) {
    && (forall d: Dir :: PlainDir(d) ==> (StreamKey(d) in streams <==> d in b.open))
    && (forall d: Dir, s: Stream :: PlainDir(d) && StreamKey(d) in streams ==>
          streams[StreamKey(d)].At(s).bytes == |Pending(nodes, Trail(d, s))|)
  }

  ghost predicate PartOk(b: Book, h: History) {
    forall t: Trail :: Of(h.landed, t) == Of(b.part, t) && Pieces(h.astray, t) == []
  }

  ghost predicate EntryOk(e: Entry, p: Publication) {
    && p.document.body == e.body && ContentOf(p, Stdout) == e.stdout && ContentOf(p, Stderr) == e.stderr
    && forall s: Stream :: s in p.contents ==> p.document.Ref(s).Some? && p.document.Ref(s).value.size == |p.contents[s]|
  }

  ghost predicate PublishedOk(b: Book, h: History) {
    && h.published.Keys == b.published.Keys
    && forall d :: d in b.published ==> EntryOk(b.published[d], h.published[d])
  }

  /** The store holds what the book says. */
  ghost predicate Keeps(b: Book, streams: map<string, Streams>, nodes: Nodes, h: History) {
    OpenOk(b, streams, nodes) && PartOk(b, h) && PublishedOk(b, h)
  }

  lemma PendingIsPart(b: Book, nodes: Nodes, h: History, c: Codec, session: string, t: Trail)
    requires PartOk(b, h) && Consistent(nodes, h, c, session)
    ensures Pending(nodes, t) == Of(b.part, t)
  {
    hide Tied, Documented;
    assert Of(h.landed, t) == Flat(Pieces(h.astray, t)) + Pending(nodes, t);
    assert Flat([]) == [] && [] + Pending(nodes, t) == Pending(nodes, t);
  }

  method UseBegin(store: FileToolOutputStore, a: AttemptRef, ghost b: Book)
    requires store.Valid() && PlainDir(a.dir)
    modifies store`streams, store.disk`nodes, store.disk`clock
    ensures store.Valid()
    ensures old(store.disk.Healthy()) ==> store.disk.Healthy()
    ensures old(store.disk.Healthy()) && Keeps(b, old(store.streams), old(store.disk.nodes), store.history) ==>
              Keeps(Next(b, store.session, ToBegin(a)), store.streams, store.disk.nodes, store.history)
  {
    hide Consistent, Tracked, Lawful, PartOk, PublishedOk, OpenOk;
    var ok := store.Begin(a, 0);
    if old(store.disk.Healthy()) && OpenOk(b, old(store.streams), old(store.disk.nodes)) {
      BeginKeeps(b, old(store.streams), old(store.disk.nodes), store.streams, store.disk.nodes, a, ok);
      OnlyOpen(b, Next(b, store.session, ToBegin(a)), store.history);
    }
  }

  lemma OnlyOpen(b: Book, b': Book, h: History)
    requires b'.part == b.part && b'.published == b.published
    ensures PartOk(b, h) ==> PartOk(b', h)
    ensures PublishedOk(b, h) ==> PublishedOk(b', h)
  {
    hide EntryOk;
  }

  lemma BeginKeeps(b: Book, streams: map<string, Streams>, nodes: Nodes, streams': map<string, Streams>, nodes': Nodes,
                   a: AttemptRef, ok: bool)
    requires OpenOk(b, streams, nodes) && PlainDir(a.dir)
    requires nodes' == nodes || nodes' == nodes[Folder(a.dir) := []]
    requires streams' == if !ok then streams else
               streams[StreamKey(a.dir) := Streams(Adopted(nodes, Trail(a.dir, Stdout)), Adopted(nodes, Trail(a.dir, Stderr)), 0)]
    ensures OpenOk(if ok then b.(open := b.open + {a.dir}) else b, streams', nodes')
  {
    hide StreamKey, PlainDir;
    forall d: Dir | PlainDir(d) && PlainDir(a.dir) && StreamKey(d) == StreamKey(a.dir) ensures d == a.dir {
      KeysAreApart(d, a.dir);
    }
    forall d: Dir, s: Stream | PlainDir(d) && StreamKey(d) in streams'
      ensures streams'[StreamKey(d)].At(s).bytes == |Pending(nodes', Trail(d, s))|
    {
      assert Pending(nodes', Trail(d, s)) == Pending(nodes, Trail(d, s));
      if d != a.dir {
        assert StreamKey(d) in streams;
      }
    }
  }

  method UseWrite(store: FileToolOutputStore, d: Dir, s: Stream, chunk: Bytes, ghost b: Book)
    requires store.Valid() && PlainDir(d)
    modifies store`streams, store`history, store.disk`nodes, store.disk`clock
    ensures store.Valid() && store.history.published == old(store.history.published)
    ensures old(store.disk.Healthy()) ==> store.disk.Healthy()
    ensures old(store.disk.Healthy()) && Keeps(b, old(store.streams), old(store.disk.nodes), old(store.history)) ==>
              Keeps(Next(b, store.session, ToWrite(d, s, chunk)), store.streams, store.disk.nodes, store.history)
  {
    hide Consistent, Tracked, Lawful, PartOk, PublishedOk, OpenOk, EntryOk;
    var writer := new FileOutputWriter(store, AttemptRef(store.session, d));
    var ok;
    ghost var landed;
    ok, landed := writer.Stream(s, chunk);
    GainedPublishes(old(store.history), store.history, Trail(d, s), chunk[..landed]);
    if old(store.disk.Healthy()) && Keeps(b, old(store.streams), old(store.disk.nodes), old(store.history)) {
      assert ok ==> chunk[..landed] == chunk;
      OpenWrite(b, old(store.streams), old(store.disk.nodes), store.streams, store.disk.nodes, d, s, chunk, ok);
      PartWrite(b, old(store.history), store.history, d, s, chunk[..landed], ok);
      PublishedWrite(b, old(store.history), store.history, Trail(d, s), chunk[..landed], Next(b, store.session, ToWrite(d, s, chunk)));
      OpenIs(b, old(store.streams), old(store.disk.nodes), d);
      if ok {
        PartOnly(b, b.(part := b.part[Trail(d, s) := Of(b.part, Trail(d, s)) + chunk]), store.streams, store.disk.nodes);
      }
    }
  }

  lemma OpenIs(b: Book, streams: map<string, Streams>, nodes: Nodes, d: Dir)
    requires OpenOk(b, streams, nodes) && PlainDir(d)
    ensures StreamKey(d) in streams <==> d in b.open
  {
  }

  lemma PartOnly(b: Book, b': Book, streams: map<string, Streams>, nodes: Nodes)
    requires OpenOk(b, streams, nodes) && b'.open == b.open
    ensures OpenOk(b', streams, nodes)
  {
  }

  lemma OpenWrite(b: Book, streams: map<string, Streams>, nodes: Nodes, streams': map<string, Streams>, nodes': Nodes,
                  d: Dir, s: Stream, chunk: Bytes, ok: bool)
    requires OpenOk(b, streams, nodes) && PlainDir(d) && (ok <==> StreamKey(d) in streams)
    requires !ok ==> streams' == streams
    requires ok ==> streams' == streams[StreamKey(d) := Counted(streams[StreamKey(d)], s, |chunk|)]
    requires CountsGrew(streams, streams', StreamKey(d), s, if ok then |chunk| else 0)
    requires OnlyFile(nodes, nodes', In(d, Partial(s)))
    requires Pending(nodes', Trail(d, s)) == Pending(nodes, Trail(d, s)) + if ok then chunk else []
    ensures OpenOk(b, streams', nodes')
  {
    hide StreamKey, PlainDir, Counted;
    forall e: Dir | PlainDir(e) && StreamKey(e) == StreamKey(d) ensures e == d {
      KeysAreApart(e, d);
    }
    forall e: Dir, u: Stream | PlainDir(e) && StreamKey(e) in streams'
      ensures streams'[StreamKey(e)].At(u).bytes == |Pending(nodes', Trail(e, u))|
    {
      if e != d || u != s {
        assert Pending(nodes', Trail(e, u)) == Pending(nodes, Trail(e, u));
      }
    }
  }

  lemma PartWrite(b: Book, h: History, h': History, d: Dir, s: Stream, bytes: Bytes, ok: bool)
    requires PartOk(b, h) && Gained(h, h', Trail(d, s), bytes) && (!ok ==> bytes == [])
    ensures PartOk(if ok then b.(part := b.part[Trail(d, s) := Of(b.part, Trail(d, s)) + bytes]) else b, h')
  {
    var b' := if ok then b.(part := b.part[Trail(d, s) := Of(b.part, Trail(d, s)) + bytes]) else b;
    forall t: Trail
      ensures Of(h'.landed, t) == Of(b'.part, t) && Pieces(h'.astray, t) == []
    {
      assert Of(h.landed, t) == Of(b.part, t) && Pieces(h.astray, t) == [];
      assert Of(h.landed, t) + [] == Of(h.landed, t);
    }
  }

  lemma PublishedWrite(b: Book, h: History, h': History, t: Trail, bytes: Bytes, b': Book)
    requires PublishedOk(b, h) && Gained(h, h', t, bytes) && b'.published == b.published
    ensures PublishedOk(b', h')
  {
    hide EntryOk;
  }

  method UsePublish(store: FileToolOutputStore, d: Dir, body: ToolResultBody, ghost b: Book)
    requires store.Valid() && PlainDir(d)
    modifies store`streams, store`history, store.disk`nodes, store.disk`clock
    ensures store.Valid()
    ensures forall e :: e in store.history.published ==>
              || (e in old(store.history.published) && store.history.published[e] == old(store.history.published)[e])
              || (e == d && store.history.published[e].document.body == body)
    ensures old(store.disk.Healthy()) ==> store.disk.Healthy()
    ensures old(store.disk.Healthy()) && Keeps(b, old(store.streams), old(store.disk.nodes), old(store.history)) ==>
              Keeps(Next(b, store.session, ToPublish(d, body)), store.streams, store.disk.nodes, store.history)
  {
    hide Consistent, Tracked, Lawful, PartOk, PublishedOk, OpenOk, EntryOk, Elsewhere;
    ghost var streams, nodes, h := store.streams, store.disk.nodes, store.history;
    var r;
    ghost var p, done;
    r, p, done := store.Publish(AttemptRef(store.session, d), body, 0);
    if old(store.disk.Healthy()) && Keeps(b, streams, nodes, h) {
      OpenIs(b, streams, nodes, d);
      if d in b.open {
        PendingIsPart(b, nodes, h, store.codec, store.session, Trail(d, Stdout));
        PendingIsPart(b, nodes, h, store.codec, store.session, Trail(d, Stderr));
        var b' := Next(b, store.session, ToPublish(d, body));
        OpenPublish(b, b', streams, nodes, store.disk.nodes, d);
        PartPublish(b, b', h, store.history, nodes, store.disk.nodes, d, p);
        EntryPublish(b, streams, nodes, store.codec, store.session, d, body, p);
        PublishedPublish(b, b', h, store.history, d, p, b'.published[d]);
      } else {
        assert streams - {StreamKey(d)} == streams;
      }
    }
  }

  lemma OpenPublish(b: Book, b': Book, streams: map<string, Streams>, nodes: Nodes, nodes': Nodes, d: Dir)
    requires OpenOk(b, streams, nodes) && PlainDir(d) && Elsewhere(nodes, nodes', d) && b'.open == b.open - {d}
    ensures OpenOk(b', streams - {StreamKey(d)}, nodes')
  {
    hide StreamKey, PlainDir;
    forall e: Dir | PlainDir(e) && StreamKey(e) == StreamKey(d) ensures e == d {
      KeysAreApart(e, d);
    }
    forall e: Dir, u: Stream | PlainDir(e) && StreamKey(e) in streams - {StreamKey(d)}
      ensures streams[StreamKey(e)].At(u).bytes == |Pending(nodes', Trail(e, u))|
    {
      assert e != d;
      assert Pending(nodes', Trail(e, u)) == Pending(nodes, Trail(e, u));
    }
  }

  lemma PartPublish(b: Book, b': Book, h: History, h': History, nodes: Nodes, nodes': Nodes, d: Dir, p: Publication)
    requires PartOk(b, h) && Done(nodes, h, nodes', h', d, p)
    requires b'.part == b.part[Trail(d, Stdout) := []][Trail(d, Stderr) := []]
    ensures PartOk(b', h')
  {
    forall t: Trail
      ensures Of(h'.landed, t) == Of(b'.part, t) && Pieces(h'.astray, t) == []
    {
      assert Of(h.landed, t) == Of(b.part, t) && Pieces(h.astray, t) == [];
      if t.dir == d {
        assert t == Trail(d, t.stream);
        assert t.stream == Stdout || t.stream == Stderr;
      }
    }
  }

  lemma EntryPublish(b: Book, streams: map<string, Streams>, nodes: Nodes, c: Codec, session: string, d: Dir,
                     body: ToolResultBody, p: Publication)
    requires OpenOk(b, streams, nodes) && PlainDir(d) && StreamKey(d) in streams
    requires IsPublication(p, c, session, d, body, 0, streams[StreamKey(d)], nodes)
    requires Pending(nodes, Trail(d, Stdout)) == Of(b.part, Trail(d, Stdout))
    requires Pending(nodes, Trail(d, Stderr)) == Of(b.part, Trail(d, Stderr))
    ensures EntryOk(Entry(body, Of(b.part, Trail(d, Stdout)), Of(b.part, Trail(d, Stderr))), p)
  {
    hide StreamKey, PlainDir;
    forall s: Stream | s in p.contents
      ensures p.document.Ref(s).Some? && p.document.Ref(s).value.size == |p.contents[s]|
    {
      assert streams[StreamKey(d)].At(s).bytes == |Pending(nodes, Trail(d, s))|;
    }
    assert Stdout in p.contents <==> In(d, Partial(Stdout)) in nodes;
    assert Stderr in p.contents <==> In(d, Partial(Stderr)) in nodes;
  }

  lemma PublishedPublish(b: Book, b': Book, h: History, h': History, d: Dir, p: Publication, e: Entry)
    requires PublishedOk(b, h) && h'.published == h.published[d := p] && EntryOk(e, p)
    requires b'.published == b.published[d := e]
    ensures PublishedOk(b', h')
  {
    hide EntryOk;
  }

  method UseOnce(store: FileToolOutputStore, use: Use, ghost b: Book)
    requires store.Valid() && UsePlain(use) && !use.ToRestart?
    modifies store`streams, store`history, store.disk`nodes, store.disk`clock
    ensures store.Valid()
    ensures forall d :: d in store.history.published ==>
              || (d in old(store.history.published) && store.history.published[d] == old(store.history.published)[d])
              || (use.ToPublish? && use.dir == d && use.body == store.history.published[d].document.body)
    ensures old(store.disk.Healthy()) ==> store.disk.Healthy()
    ensures old(store.disk.Healthy()) && Keeps(b, old(store.streams), old(store.disk.nodes), old(store.history)) ==>
              Keeps(Next(b, store.session, use), store.streams, store.disk.nodes, store.history)
  {
    hide Consistent, Tracked, Lawful, Keeps, Next;
    match use {
      case ToBegin(a) => UseBegin(store, a, b);
      case ToWrite(d, s, chunk) => UseWrite(store, d, s, chunk, b);
      case ToPublish(d, body) => UsePublish(store, d, body, b);
    }
  }

  /** Main result, for any use of the store by any number of processes, from an empty disk on. With the
      disk failing anywhere: what is found for an attempt was put in place by a publish of this very
      attempt, with the body it was given. With nothing failing: exactly the attempts that were begun and
      published are found, each with its last body and with the bytes written since it was last published. */
  method AnyUse(disk: Disk<Path, Bytes>, codec: Codec, session: string, uses: seq<Use>) returns (ghost history: History)
    requires Lawful(codec) && disk.nodes == map[] && forall u :: u in uses ==> UsePlain(u)
    modifies disk`nodes, disk`clock
    ensures Consistent(disk.nodes, history, codec, session)
    ensures forall d :: d in history.published ==>
              exists i :: 0 <= i < |uses| && uses[i] == ToPublish(d, history.published[d].document.body)
    ensures forall d :: (Found(disk.nodes, codec, session, d).Some? ==>
              d in history.published && Found(disk.nodes, codec, session, d) == Some(ResultOf(codec, history.published[d].document)))
    ensures old(disk.Healthy()) ==> PublishedOk(Books(session, uses), history)
    ensures old(disk.Healthy()) ==>
              forall d :: Found(disk.nodes, codec, session, d).Some? <==> d in Books(session, uses).published
  {
    hide Consistent, Tracked, Lawful, Found, Keeps, Next;
    EmptyDiskIsConsistent(codec, session, Dir("", "", ""));
    var store := new FileToolOutputStore(session, codec, disk, NOTHING);
    BlankKeeps(store.streams, disk.nodes);
    ghost var b := BLANK;
    for i := 0 to |uses|
      invariant fresh(store) && store.disk == disk && store.session == session && store.codec == codec && store.Valid()
      invariant forall d :: d in store.history.published ==>
                  exists j :: 0 <= j < i && uses[j] == ToPublish(d, store.history.published[d].document.body)
      invariant b == Books(session, uses[..i])
      invariant old(disk.Healthy()) ==> disk.Healthy() && Keeps(b, store.streams, disk.nodes, store.history)
    {
      BooksNext(session, uses, i);
      if uses[i].ToRestart? {
        ghost var streams := store.streams;
        store := new FileToolOutputStore(session, codec, disk, store.history);
        RestartKeeps(b, streams, disk.nodes, store.history, session);
      } else {
        assert uses[i] in uses;
        UseOnce(store, uses[i], b);
      }
      b := Next(b, session, uses[i]);
    }
    history := store.history;
    assert uses[..|uses|] == uses;
    assert store.Valid();
    forall d
      ensures Found(disk.nodes, codec, session, d).Some? ==>
                d in history.published && Found(disk.nodes, codec, session, d) == Some(ResultOf(codec, history.published[d].document))
      ensures old(disk.Healthy()) ==> (Found(disk.nodes, codec, session, d).Some? <==> d in b.published)
    {
      FindsExactlyWhatWasPublished(disk.nodes, history, codec, session, d);
      if old(disk.Healthy()) {
        KeptIsFound(b, store.streams, disk.nodes, history, codec, session, d);
      }
    }
    if old(disk.Healthy()) {
      KeptIsPublished(b, store.streams, disk.nodes, history);
    }
  }

  lemma BooksNext(session: string, uses: seq<Use>, i: nat)
    requires i < |uses|
    ensures Books(session, uses[..i + 1]) == Next(Books(session, uses[..i]), session, uses[i])
  {
    hide Next;
    assert uses[..i + 1][..i] == uses[..i];
  }

  lemma BlankKeeps(streams: map<string, Streams>, nodes: Nodes)
    requires streams == map[] && nodes == map[]
    ensures Keeps(BLANK, streams, nodes, NOTHING)
  {
  }

  lemma RestartKeeps(b: Book, streams: map<string, Streams>, nodes: Nodes, h: History, session: string)
    ensures Keeps(b, streams, nodes, h) ==> Keeps(Next(b, session, ToRestart), map[], nodes, h)
  {
    hide EntryOk;
  }

  lemma KeptIsPublished(b: Book, streams: map<string, Streams>, nodes: Nodes, h: History)
    requires Keeps(b, streams, nodes, h)
    ensures PublishedOk(b, h)
  {
  }

  lemma KeptIsFound(b: Book, streams: map<string, Streams>, nodes: Nodes, h: History, c: Codec, session: string, d: Dir)
    requires Keeps(b, streams, nodes, h) && Consistent(nodes, h, c, session) && Lawful(c)
    ensures Found(nodes, c, session, d).Some? <==> d in b.published
  {
    hide Found, Conserved, Documented, OpenOk, Lawful;
    FindsExactlyWhatWasPublished(nodes, h, c, session, d);
    if d in b.published {
      assert EntryOk(b.published[d], h.published[d]);
      forall s: Stream | s in h.published[d].contents
        ensures In(d, Final(s)) in nodes && nodes[In(d, Final(s))] == h.published[d].contents[s]
      {
        assert TiedAt(nodes, h, Trail(d, s)) && Pieces(h.astray, Trail(d, s)) == [];
      }
    }
  }

  // ------------------------------------------------------------ two ways to lose something

  const HERE := Dir("run", "call", "1")
  const STDOUT := Trail(HERE, Stdout)

  /** A write of two bytes fails after the first. The publish that follows succeeds, gives that byte, and
      its result is not found. */
  lemma HalfFailedWrite(c: Codec, session: string, body: ToolResultBody)
    returns (nodes: Nodes, h: History, e: Streams, p: Publication, after: Nodes, h': History)
    requires Lawful(c)
    ensures nodes == map[In(HERE, Partial(Stdout)) := [1]] && h == Wrote(NOTHING, STDOUT, Kept([1, 2], 1))
    ensures Consistent(nodes, h, c, session) && e == Streams(Slot(true, 0), Slot(false, 0), 0) && HeldBoth(e, nodes, HERE)
    ensures IsPublication(p, c, session, HERE, body, 0, e, nodes) && ContentOf(p, Stdout) == [1]
    ensures Done(nodes, h, after, h', HERE, p) && Consistent(after, h', c, session)
    ensures Found(after, c, session, HERE) == None
  {
    var empty: Nodes := map[];
    var chunk: Bytes := [1, 2];
    assert Kept(chunk, 1) == [1];
    EmptyDiskIsConsistent(c, session, HERE);
    WriteKeeps(empty, NOTHING, c, session, STDOUT, [1]);
    assert Pending(empty, STDOUT) + [1] == [1];
    nodes := empty[In(HERE, Partial(Stdout)) := [1]];
    h := Wrote(NOTHING, STDOUT, [1]);
    e := Streams(Slot(true, 0), Slot(false, 0), 0);
    p := PublicationOf(c, session, HERE, body, 0, e, nodes);
    PublicationIs(p, c, session, HERE, body, 0, e, nodes);
    after, h' := PublishAll(nodes, h, c, session, body, e, p);
    FoundAfterPublish(p, nodes, c, session, HERE, body, 0, e, after, h');
  }

  /** A whole publish of an attempt that has written to one stream. */
  lemma PublishAll(nodes: Nodes, h: History, c: Codec, session: string, body: ToolResultBody, e: Streams, p: Publication)
    returns (after: Nodes, h': History)
    requires Consistent(nodes, h, c, session) && HeldBoth(e, nodes, HERE) && IsPublication(p, c, session, HERE, body, 0, e, nodes)
    requires In(HERE, Partial(Stdout)) in nodes && In(HERE, Partial(Stderr)) !in nodes
    ensures Done(nodes, h, after, h', HERE, p) && Consistent(after, h', c, session)
    ensures HERE in h'.published && h'.published[HERE] == p
    ensures forall s: Stream :: s in p.contents ==> In(HERE, Final(s)) in after && after[In(HERE, Final(s))] == p.contents[s]
  {
    hide Consistent, Done, Stopped, StreamStep;
    var n1 := Moved(nodes, In(HERE, Partial(Stdout)), In(HERE, Final(Stdout)));
    var h1 := SetAside(h, STDOUT, nodes[In(HERE, Partial(Stdout))]);
    SetAsideKeeps(nodes, h, c, session, STDOUT);
    assert StreamStep(nodes, h, n1, h1, STDOUT) by { OneStream(nodes, h, STDOUT); }
    FirstStep(nodes, h, n1, h1, HERE);
    forall s: Stream ensures In(HERE, Partial(s)) !in n1 {
      assert s == Stdout || s == Stderr;
    }
    StreamsInPlace(nodes, h, n1, h1, HERE, p);
    var n2 := n1[In(HERE, JsonPartial) := c.encode(p.document)];
    BystanderKeeps(n1, h1, c, session, In(HERE, JsonPartial), c.encode(p.document));
    PublishKeeps(n2, h1, c, session, HERE, p);
    after, h' := Moved(n2, In(HERE, JsonPartial), In(HERE, Json)), Published(h1, HERE, p);
    StoppedOrDone(nodes, h, n1, h1, after, h', HERE, p, true);
  }

  lemma OneStream(nodes: Nodes, h: History, t: Trail)
    requires In(t.dir, Partial(t.stream)) in nodes
    ensures StreamStep(nodes, h, Moved(nodes, In(t.dir, Partial(t.stream)), In(t.dir, Final(t.stream))),
                       SetAside(h, t, nodes[In(t.dir, Partial(t.stream))]), t)
  {
  }

  /** One byte is written, a publish moves it and stops, another byte is written: the next publish gives
      the second byte alone. */
  lemma PublishStoppedBetween(c: Codec, session: string, body: ToolResultBody)
    returns (nodes: Nodes, h: History, e: Streams, p: Publication)
    requires Lawful(c)
    ensures nodes == map[In(HERE, Final(Stdout)) := [1], In(HERE, Partial(Stdout)) := [2]]
    ensures h == Wrote(SetAside(Wrote(NOTHING, STDOUT, [1]), STDOUT, [1]), STDOUT, [2])
    ensures Consistent(nodes, h, c, session) && e == Streams(Slot(true, 1), Slot(false, 0), 0) && HeldBoth(e, nodes, HERE)
    ensures IsPublication(p, c, session, HERE, body, 0, e, nodes)
    ensures Of(h.landed, STDOUT) == [1, 2] && ContentOf(p, Stdout) == [2]
  {
    var empty: Nodes := map[];
    EmptyDiskIsConsistent(c, session, HERE);
    WriteKeeps(empty, NOTHING, c, session, STDOUT, [1]);
    assert Pending(empty, STDOUT) + [1] == [1];
    var n1 := empty[In(HERE, Partial(Stdout)) := [1]];
    var h1 := Wrote(NOTHING, STDOUT, [1]);
    SetAsideKeeps(n1, h1, c, session, STDOUT);
    var n2 := Moved(n1, In(HERE, Partial(Stdout)), In(HERE, Final(Stdout)));
    var h2 := SetAside(h1, STDOUT, [1]);
    assert n2 == map[In(HERE, Final(Stdout)) := [1]];
    WriteKeeps(n2, h2, c, session, STDOUT, [2]);
    assert Pending(n2, STDOUT) + [2] == [2];
    nodes := n2[In(HERE, Partial(Stdout)) := [2]];
    h := Wrote(h2, STDOUT, [2]);
    e := Streams(Slot(true, 1), Slot(false, 0), 0);
    p := PublicationOf(c, session, HERE, body, 0, e, nodes);
    PublicationIs(p, c, session, HERE, body, 0, e, nodes);
  }
}
