/** What is on disk about the tool calls of one session, and what really happened.

    The ghost history records every byte that reached a stream and every result whose
    `output.json` was renamed into place. `Consistent` ties it to the files, and every file
    operation of the store keeps it, so it also holds wherever a process died. */
module OutputHistory {
  import opened Text
  import opened Utf8

  type Bytes = seq<Byte>

  /** An attempt's directory below `tool-output`. Path components are kept apart. */
  datatype Dir = Dir(run: string, call: string, attempt: string)
  datatype AttemptRef = AttemptRef(session: string, dir: Dir)

  datatype Stream = Stdout | Stderr
  datatype FileName = Partial(stream: Stream) | Final(stream: Stream) | Json | JsonPartial
  datatype Path = Folder(dir: Dir) | In(dir: Dir, file: FileName)
  type Nodes = map<Path, Bytes>

  datatype ContentRef = ContentRef(path: Path, size: nat, hash: string)

  datatype ToolResultStatus = Completed | Failed | Uncertain
  datatype ToolResultBody = ToolResultBody(status: ToolResultStatus, payload: string)

  datatype OutputDocument = OutputDocument(
    v: nat, session: string, dir: Dir, status: ToolResultStatus, body: ToolResultBody, elapsed: nat,
    stdout: Option<ContentRef>, stderr: Option<ContentRef>)
  {
    function Ref(s: Stream): Option<ContentRef> { if s.Stdout? then stdout else stderr }
  }

  const OUTPUT_FORMAT_VERSION := 1

  datatype PublishedOutput = PublishedOutput(
    body: ToolResultBody, output: ContentRef, status: ToolResultStatus, elapsed: nat, preview: Option<string>,
    stdout: Option<ContentRef>, stderr: Option<ContentRef>)

  /** JSON, the content hash, and the short text shown in events. */
  datatype Codec = Codec(encode: OutputDocument -> Bytes, decode: Bytes -> Option<OutputDocument>,
                         hash: Bytes -> string, preview: ToolResultBody -> Option<string>)

  ghost predicate Lawful(c: Codec) {
    && (forall d :: c.decode(c.encode(d)) == Some(d))
    && (forall a, b :: c.hash(a) == c.hash(b) ==> a == b)
  }

  function ResultOf(c: Codec, d: OutputDocument): PublishedOutput {
    var bytes := c.encode(d);
    PublishedOutput(d.body, ContentRef(In(d.dir, Json), |bytes|, c.hash(bytes)), d.status, d.elapsed,
                    c.preview(d.body), d.stdout, d.stderr)
  }

  // ------------------------------------------------------------ recovery

  /** The stream that a document names is on disk as the document says. */
  predicate Matches(nodes: Nodes, c: Codec, d: Dir, s: Stream, reference: ContentRef) {
    var p := In(d, Final(s));
    && p in nodes
    && |nodes[p]| == reference.size
    && c.hash(nodes[p]) == reference.hash
    && reference.path == p
  }

  /** What `find_published` answers, when nothing goes wrong with reading. */
  function Found(nodes: Nodes, c: Codec, session: string, d: Dir): Option<PublishedOutput> {
    if In(d, Json) !in nodes then None else
    match c.decode(nodes[In(d, Json)]) {
      case None => None
      case Some(document) =>
        if document.session != session || document.dir != d then None
        else if document.stdout.Some? && !Matches(nodes, c, d, Stdout, document.stdout.value) then None
        else if document.stderr.Some? && !Matches(nodes, c, d, Stderr, document.stderr.value) then None
        else Some(PublishedOutput(
                    document.body, ContentRef(In(d, Json), |nodes[In(d, Json)]|, c.hash(nodes[In(d, Json)])),
                    document.status, document.elapsed, c.preview(document.body), document.stdout, document.stderr))
    }
  }

  // ------------------------------------------------------------ history

  datatype Trail = Trail(dir: Dir, stream: Stream)

  /** A result whose `output.json` was renamed into place, with the bytes of the streams it names. */
  datatype Publication = Publication(document: OutputDocument, contents: map<Stream, Bytes>)

  /** `landed`: what reached a stream of an attempt since its last publication, in order.
      `astray`: the files, one after another, that publishes moved out of `.partial` without finishing. */
  datatype History = History(published: map<Dir, Publication>, landed: map<Trail, Bytes>, astray: map<Trail, seq<Bytes>>)

  const NOTHING := History(map[], map[], map[])

  function Of(m: map<Trail, Bytes>, t: Trail): Bytes { if t in m then m[t] else [] }

  function Pieces(m: map<Trail, seq<Bytes>>, t: Trail): seq<Bytes> { if t in m then m[t] else [] }

  function Flat(pieces: seq<Bytes>): Bytes {
    if pieces == [] then [] else Flat(pieces[..|pieces| - 1]) + pieces[|pieces| - 1]
  }

  function Pending(nodes: Nodes, t: Trail): Bytes {
    var p := In(t.dir, Partial(t.stream));
    if p in nodes then nodes[p] else []
  }

  function Wrote(h: History, t: Trail, bytes: Bytes): History {
    h.(landed := h.landed[t := Of(h.landed, t) + bytes])
  }

  function SetAside(h: History, t: Trail, bytes: Bytes): History {
    h.(astray := h.astray[t := Pieces(h.astray, t) + [bytes]])
  }

  function Published(h: History, d: Dir, p: Publication): History {
    History(h.published[d := p],
            h.landed[Trail(d, Stdout) := []][Trail(d, Stderr) := []],
            h.astray[Trail(d, Stdout) := []][Trail(d, Stderr) := []])
  }

  // ------------------------------------------------------------ the invariant

  /** Not a byte that reached a stream is gone: it is in `.partial`, or a publish that did not finish moved it away. */
  ghost predicate Conserved(nodes: Nodes, h: History) {
    forall t: Trail :: Of(h.landed, t) == Flat(Pieces(h.astray, t)) + Pending(nodes, t)
  }

  /** What a stream's final name holds: the last file that went astray; or else, of a result in place, the
      bytes it names; or else nothing. */
  ghost predicate TiedAt(nodes: Nodes, h: History, t: Trail) {
    var pieces, p := Pieces(h.astray, t), In(t.dir, Final(t.stream));
    if pieces != [] then p in nodes && nodes[p] == pieces[|pieces| - 1]
    else if t.dir in h.published then
      t.stream in h.published[t.dir].contents ==> p in nodes && nodes[p] == h.published[t.dir].contents[t.stream]
    else p !in nodes
  }

  ghost predicate Tied(nodes: Nodes, h: History) {
    forall t: Trail :: TiedAt(nodes, h, t)
  }

  ghost predicate NamesItsStreams(c: Codec, d: Dir, p: Publication) {
    forall s: Stream ::
      && (p.document.Ref(s).Some? <==> s in p.contents)
      && (s in p.contents ==>
            && p.document.Ref(s).value.path == In(d, Final(s))
            && p.document.Ref(s).value.hash == c.hash(p.contents[s]))
  }

  ghost predicate Recorded(nodes: Nodes, c: Codec, session: string, d: Dir, p: Publication) {
    && In(d, Json) in nodes
    && nodes[In(d, Json)] == c.encode(p.document)
    && p.document.session == session
    && p.document.dir == d
    && NamesItsStreams(c, d, p)
  }

  ghost predicate Documented(nodes: Nodes, h: History, c: Codec, session: string) {
    forall d: Dir ::
      && (In(d, Json) in nodes <==> d in h.published)
      && (d in h.published ==> Recorded(nodes, c, session, d, h.published[d]))
  }

  ghost predicate Consistent(nodes: Nodes, h: History, c: Codec, session: string) {
    Conserved(nodes, h) && Tied(nodes, h) && Documented(nodes, h, c, session)
  }

  /** The streams a publication names are on disk, whole, at the size it gives. */
  ghost predicate Whole(nodes: Nodes, d: Dir, p: Publication)
    requires forall s :: s in p.contents ==> p.document.Ref(s).Some?
  {
    forall s: Stream :: s in p.contents ==>
      && In(d, Final(s)) in nodes
      && nodes[In(d, Final(s))] == p.contents[s]
      && p.document.Ref(s).value.size == |p.contents[s]|
  }

  /** Main result: what is found is exactly what was published and is still whole. A result is
      found if and only if a publish of this very attempt renamed its `output.json` into place and
      the streams it names are on disk whole; and it is the result that publish produced. */
  lemma FindsExactlyWhatWasPublished(nodes: Nodes, h: History, c: Codec, session: string, d: Dir)
    requires Lawful(c) && Consistent(nodes, h, c, session)
    ensures d in h.published ==> forall s :: s in h.published[d].contents ==> h.published[d].document.Ref(s).Some?
    ensures Found(nodes, c, session, d) ==
            if d in h.published && Whole(nodes, d, h.published[d]) then Some(ResultOf(c, h.published[d].document)) else None
  {
    assert In(d, Json) in nodes <==> d in h.published;
    if d in h.published {
      var p := h.published[d];
      assert Recorded(nodes, c, session, d, p);
      assert c.decode(nodes[In(d, Json)]) == Some(p.document);
      MatchesWhenWhole(nodes, c, d, p, Stdout);
      MatchesWhenWhole(nodes, c, d, p, Stderr);
      assert p.document.Ref(Stdout) == p.document.stdout && p.document.Ref(Stderr) == p.document.stderr;
    }
  }

  lemma MatchesWhenWhole(nodes: Nodes, c: Codec, d: Dir, p: Publication, s: Stream)
    requires Lawful(c) && NamesItsStreams(c, d, p)
    ensures s in p.contents ==>
              (Matches(nodes, c, d, s, p.document.Ref(s).value) <==>
               && In(d, Final(s)) in nodes
               && nodes[In(d, Final(s))] == p.contents[s]
               && p.document.Ref(s).value.size == |p.contents[s]|)
  {
  }

  // ------------------------------------------------------------ every file operation keeps it

  lemma FlatSnoc(pieces: seq<Bytes>, piece: Bytes)
    ensures Flat(pieces + [piece]) == Flat(pieces) + piece
  {
    assert (pieces + [piece])[..|pieces|] == pieces;
  }

  /** Main result: the disk of a new session is consistent, and nothing is found on it. */
  lemma EmptyDiskIsConsistent(c: Codec, session: string, d: Dir)
    ensures Consistent(map[], NOTHING, c, session)
    ensures Found(map[], c, session, d) == None
  {
  }

  /** Files that are no stream and no result. */
  predicate Bystander(p: Path) {
    p.Folder? || p.file.JsonPartial?
  }

  /** Operations that leave every document as it was leave the records in order. */
  lemma DocumentedStays(nodes: Nodes, h: History, c: Codec, session: string, after: Nodes, h': History)
    requires Documented(nodes, h, c, session) && h'.published == h.published
    requires forall d: Dir :: (In(d, Json) in after <==> In(d, Json) in nodes)
                              && (In(d, Json) in nodes ==> after[In(d, Json)] == nodes[In(d, Json)])
    ensures Documented(after, h', c, session)
  {
    forall d: Dir
      ensures In(d, Json) in after <==> d in h'.published
      ensures d in h'.published ==> Recorded(after, c, session, d, h'.published[d])
    {
      assert d in h.published ==> Recorded(nodes, c, session, d, h.published[d]);
    }
  }

  lemma BystanderKeeps(nodes: Nodes, h: History, c: Codec, session: string, p: Path, bytes: Bytes)
    requires Consistent(nodes, h, c, session) && Bystander(p)
    ensures Consistent(nodes[p := bytes], h, c, session)
  {
    hide Documented;
    var after := nodes[p := bytes];
    DocumentedStays(nodes, h, c, session, after, h);
    forall t: Trail
      ensures Of(h.landed, t) == Flat(Pieces(h.astray, t)) + Pending(after, t)
      ensures TiedAt(after, h, t)
    {
      assert TiedAt(nodes, h, t) && Pending(after, t) == Pending(nodes, t);
    }
  }

  lemma WriteKeeps(nodes: Nodes, h: History, c: Codec, session: string, t: Trail, bytes: Bytes)
    requires Consistent(nodes, h, c, session)
    ensures Consistent(nodes[In(t.dir, Partial(t.stream)) := Pending(nodes, t) + bytes], Wrote(h, t, bytes), c, session)
  {
    hide Documented;
    var after := nodes[In(t.dir, Partial(t.stream)) := Pending(nodes, t) + bytes];
    var h' := Wrote(h, t, bytes);
    DocumentedStays(nodes, h, c, session, after, h');
    forall u: Trail
      ensures Of(h'.landed, u) == Flat(Pieces(h'.astray, u)) + Pending(after, u)
      ensures TiedAt(after, h', u)
    {
      assert TiedAt(nodes, h, u);
      assert Of(h.landed, u) == Flat(Pieces(h.astray, u)) + Pending(nodes, u);
      if u != t {
        assert Pending(after, u) == Pending(nodes, u);
      }
    }
  }

  function Moved(nodes: Nodes, from: Path, to: Path): Nodes
    requires from in nodes
  {
    nodes[to := nodes[from]] - {from}
  }

  lemma SetAsideKeeps(nodes: Nodes, h: History, c: Codec, session: string, t: Trail)
    requires Consistent(nodes, h, c, session)
    requires In(t.dir, Partial(t.stream)) in nodes
    ensures Consistent(Moved(nodes, In(t.dir, Partial(t.stream)), In(t.dir, Final(t.stream))),
                       SetAside(h, t, Pending(nodes, t)), c, session)
  {
    hide Documented;
    var after := Moved(nodes, In(t.dir, Partial(t.stream)), In(t.dir, Final(t.stream)));
    var h' := SetAside(h, t, Pending(nodes, t));
    DocumentedStays(nodes, h, c, session, after, h');
    FlatSnoc(Pieces(h.astray, t), Pending(nodes, t));
    forall u: Trail
      ensures Of(h'.landed, u) == Flat(Pieces(h'.astray, u)) + Pending(after, u)
      ensures TiedAt(after, h', u)
    {
      assert TiedAt(nodes, h, u);
      assert Of(h.landed, u) == Flat(Pieces(h.astray, u)) + Pending(nodes, u);
      if u != t {
        assert Pending(after, u) == Pending(nodes, u);
      }
    }
  }

  lemma PublishKeeps(nodes: Nodes, h: History, c: Codec, session: string, d: Dir, p: Publication)
    requires Consistent(nodes, h, c, session)
    requires In(d, JsonPartial) in nodes && nodes[In(d, JsonPartial)] == c.encode(p.document)
    requires p.document.session == session && p.document.dir == d && NamesItsStreams(c, d, p)
    requires forall s: Stream :: In(d, Partial(s)) !in nodes
    requires forall s: Stream :: s in p.contents ==> In(d, Final(s)) in nodes && nodes[In(d, Final(s))] == p.contents[s]
    ensures Consistent(Moved(nodes, In(d, JsonPartial), In(d, Json)), Published(h, d, p), c, session)
  {
    var after := Moved(nodes, In(d, JsonPartial), In(d, Json));
    var h' := Published(h, d, p);
    forall u: Trail
      ensures Of(h'.landed, u) == Flat(Pieces(h'.astray, u)) + Pending(after, u)
      ensures TiedAt(after, h', u)
    {
      assert TiedAt(nodes, h, u);
      assert Of(h.landed, u) == Flat(Pieces(h.astray, u)) + Pending(nodes, u);
      assert Pending(after, u) == Pending(nodes, u);
      assert u.stream == Stdout || u.stream == Stderr;
      assert u == Trail(u.dir, u.stream);
    }
    forall e: Dir
      ensures In(e, Json) in after <==> e in h'.published
      ensures e in h'.published ==> Recorded(after, c, session, e, h'.published[e])
    {
      if e != d {
        assert e in h.published ==> Recorded(nodes, c, session, e, h.published[e]);
      }
    }
  }
}
