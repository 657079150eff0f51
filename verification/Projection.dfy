/** A tool result as the model sees it (crates/komo-kernel/src/projection.rs). */
module Projection {
  import opened Text
  import opened TextCut
  import opened Utf8
  import Resource

  const DEFAULT_MODEL_RESULT_BYTES: nat := 30 * 1024
  const MODEL_RESULT_LINES: nat := 2000
  const PREVIEW_BYTES: nat := 2 * 1024
  const MIN_DECAY_SAVING_BYTES: nat := 1024

  datatype Status = Completed | Failed | Uncertain

  /** A stored file: its path below the session directory, and its size. */
  datatype Stored = Stored(path: string, size: nat)
  datatype Image = Image(mime: string, size: nat)

  datatype Facts = Facts(
    tool: string, status: Status, elapsed: nat, text: Option<Bytes>, output: string,
    stdout: Option<Stored>, stderr: Option<Stored>, artifacts: seq<Stored>, images: seq<Image>)
  {
    function Body(): Bytes { if text.Some? then text.value else [] }
  }

  /** How sizes and durations are printed. */
  datatype Style = Style(size: nat -> string, duration: nat -> string)

  datatype DecayPolicy = DecayPolicy(threshold: nat, fullSends: nat, headBytes: nat, tailBytes: nat)
  datatype Context = Context(modelResultBytes: nat, decay: Option<DecayPolicy>)

  // ------------------------------------------------------------ the lines around the text

  function StatusText(s: Status): string {
    match s
    case Completed => "完成"
    case Failed => "失败"
    case Uncertain => "结果不明"
  }

  function StreamSize(style: Style, name: string, s: Option<Stored>): string {
    if s.Some? then " · " + name + " " + style.size(s.value.size) else ""
  }

  function Header(style: Style, f: Facts): string {
    "[" + f.tool + " · " + StatusText(f.status) + " · " + style.duration(f.elapsed)
    + StreamSize(style, "stdout", f.stdout) + StreamSize(style, "stderr", f.stderr) + "]\n"
  }

  function WhereToRead(path: string, file: Resource.OutputFile): string {
    match Resource.OutputUri(path, file)
    case Some(u) => Resource.Print(u)
    case None => path + "（相对 Session 目录）"
  }

  function StreamsToRead(f: Facts): string {
    match (f.stdout, f.stderr)
    case (None, None) => ""
    case (Some(o), None) => "（流：" + WhereToRead(o.path, Resource.Stdout) + "）"
    case (None, Some(e)) => "（流：" + WhereToRead(e.path, Resource.Stderr) + "）"
    case (Some(o), Some(e)) =>
      "（流：" + WhereToRead(o.path, Resource.Stdout) + "、" + WhereToRead(e.path, Resource.Stderr) + "）"
  }

  function Recall(f: Facts): string {
    "完整输出：" + WhereToRead(f.output, Resource.Result) + StreamsToRead(f) + "\n"
  }

  function ArtifactUri(path: string): Option<Resource.ResourceUri> {
    if !StartsWith(path, "artifacts/") then None
    else match Resource.Parse("artifact" + "://" + (Resource.ARTIFACT_FILES + "/" + path[|"artifacts/"|..])) {
        case Ok(u) => Some(u)
        case Err(_) => None
      }
  }

  function ArtifactLine(style: Style, a: Stored): string {
    match ArtifactUri(a.path)
    case None => ""
    case Some(u) => "产物：" + Resource.Print(u) + "（" + style.size(a.size) + "）\n"
  }

  function Artifacts(style: Style, artifacts: seq<Stored>): string {
    if artifacts == [] then "" else ArtifactLine(style, artifacts[0]) + Artifacts(style, artifacts[1..])
  }

  function Images(style: Style, images: seq<Image>): string {
    if images == [] then ""
    else "图片：" + images[0].mime + "（" + style.size(images[0].size) + "），已附在这条结果里\n" + Images(style, images[1..])
  }

  function CutNotice(style: Style, length: nat, lines: nat, limit: nat, head: nat): string {
    "…（正文 " + Decimal(length) + " 字节 / " + Decimal(lines) + " 行，超过单条结果上限（" + style.size(limit) + " / "
    + Decimal(MODEL_RESULT_LINES) + " 行），只给了开头 " + Decimal(head) + " 字节；"
    + "其余在下面的完整输出里，用 read 的 start_line/line_count 分段读，或用 rg 搜要的那几行）…\n"
  }

  function DecayNotice(length: nat, lines: nat): string {
    "（这份结果前文已完整给过，此后只留首尾整行：原文 " + Decimal(length) + " 字节 / " + Decimal(lines) + " 行）\n"
  }

  function OmittedNotice(omitted: nat): string {
    "…（中间省略 " + Decimal(omitted) + " 字节）…\n"
  }

  // ------------------------------------------------------------ the views

  function LineCount(text: Bytes): nat {
    if text == [] then 0
    else match FirstNewline(text) {
        case None => 1
        case Some(i) => 1 + LineCount(text[i + 1..])
      }
  }

  function EndLine(out: Bytes): Bytes {
    if out != [] && out[|out| - 1] == NEWLINE then out else out + [NEWLINE]
  }

  function PushExcerpt(out: Bytes, x: Truncated): Bytes {
    EndLine(if x.omitted > 0 then EndLine(out + x.head) + Encode(OmittedNotice(x.omitted)) + x.tail else out + x.head)
  }

  function PushPreview(style: Style, out: Bytes, text: Bytes, limit: nat, room: nat): Bytes
    requires Valid(text)
  {
    var head := Preview(text, room);
    EndLine(out + head) + Encode(CutNotice(style, |text|, LineCount(text), limit, |head|))
  }

  function Preview(text: Bytes, room: nat): Bytes
    requires Valid(text)
  {
    HeadEndIsGood(text, Min(PREVIEW_BYTES, room));
    text[..HeadEnd(text, Min(PREVIEW_BYTES, room))]
  }

  function Min(a: nat, b: nat): nat { if a <= b then a else b }
  function Max(a: nat, b: nat): nat { if a <= b then b else a }

  function Limit(c: Context): nat { Min(c.modelResultBytes, DEFAULT_MODEL_RESULT_BYTES) }

  function Room(style: Style, f: Facts, c: Context): nat {
    var header := |Encode(Header(style, f))|;
    if header < Limit(c) then Limit(c) - header else 0
  }

  predicate Fits(style: Style, f: Facts, c: Context) {
    |f.Body()| <= Room(style, f, c) && LineCount(f.Body()) <= MODEL_RESULT_LINES
  }

  function SizeOf(s: Option<Stored>): nat { if s.Some? then s.value.size else 0 }

  predicate HasMore(f: Facts) {
    f.text.None? || SizeOf(f.stdout) + SizeOf(f.stderr) > |f.Body()|
  }

  predicate Recalls(style: Style, f: Facts, c: Context) {
    !Fits(style, f, c) || HasMore(f)
  }

  function Tail(style: Style, f: Facts, recall: bool): Bytes {
    (if recall then Encode(Recall(f)) else []) + Encode(Artifacts(style, f.artifacts)) + Encode(Images(style, f.images))
  }

  /** `project`: the full view. */
  function Project(style: Style, f: Facts, c: Context): Bytes
    requires Valid(f.Body())
  {
    var header := Encode(Header(style, f));
    var body := if Fits(style, f, c) then PushExcerpt(header, Whole(f.Body()))
                else PushPreview(style, header, f.Body(), Limit(c), Room(style, f, c));
    body + Tail(style, f, Recalls(style, f, c))
  }

  /** `decay`: the short view, cut from the text itself. */
  function Decay(style: Style, f: Facts, p: DecayPolicy): Bytes
    requires Valid(f.Body())
  {
    var out := Encode(Header(style, f)) + Encode(DecayNotice(|f.Body()|, LineCount(f.Body())));
    PushExcerpt(out, Excerpt(f.Body(), p.headBytes, p.tailBytes)) + Tail(style, f, true)
  }

  datatype Projected = Projected(full: Bytes, decayed: Option<Bytes>)

  function ProjectViews(style: Style, f: Facts, c: Context): Projected
    requires Valid(f.Body())
  {
    var full := Project(style, f, c);
    Projected(full,
              if c.decay.Some? && f.status.Completed? && |full| > c.decay.value.threshold
                 && |Decay(style, f, c.decay.value)| + MIN_DECAY_SAVING_BYTES <= |full|
              then Some(Decay(style, f, c.decay.value)) else None)
  }

  function Select(p: Projected, decayed: bool): Bytes {
    if p.decayed.Some? && decayed then p.decayed.value else p.full
  }

  // ------------------------------------------------------------ what decides

  /** How often a byte stands in a text. */
  function Occurrences(text: Bytes, b: Byte): nat {
    if text == [] then 0 else Occurrences(text[..|text| - 1], b) + if text[|text| - 1] == b then 1 else 0
  }

  lemma {:induction false} OccurrencesAdd(a: Bytes, c: Bytes, b: Byte)
    ensures Occurrences(a + c, b) == Occurrences(a, b) + Occurrences(c, b)
  {
    if c == [] {
      assert a + c == a;
    } else {
      assert (a + c)[..|a + c| - 1] == a + c[..|c| - 1];
      OccurrencesAdd(a, c[..|c| - 1], b);
    }
  }

  lemma {:induction false} NoOccurrence(text: Bytes, b: Byte)
    requires b !in text
    ensures Occurrences(text, b) == 0
  {
    if text != [] {
      assert text[|text| - 1] in text;
      NoOccurrence(text[..|text| - 1], b);
    }
  }

  /** The lines of a text are its line ends, and one more if something stands behind the last of them. */
  lemma {:induction false} LinesAreLineEnds(text: Bytes)
    ensures LineCount(text) == Occurrences(text, 10) + if text == [] || text[|text| - 1] == 10 then 0 else 1
    decreases |text|
  {
    if text != [] {
      match FirstNewline(text) {
        case None => NoOccurrence(text, 10);
        case Some(i) =>
          var rest := text[i + 1..];
          LinesAreLineEnds(rest);
          NoOccurrence(text[..i], 10);
          assert text == text[..i] + [10] + rest;
          OccurrencesAdd(text[..i] + [10], rest, 10);
          OccurrencesAdd(text[..i], [10], 10);
          assert [10 as Byte][..0] == [];
          assert Occurrences([10], 10) == 1;
      }
    }
  }

  /** A text is shown whole if and only if header and text fit the limit, which is 30 KiB or less, and it has at
      most 2000 lines. An empty text always fits. */
  lemma ShownWholeExactly(style: Style, f: Facts, c: Context)
    ensures var text := if f.text.Some? then f.text.value else [];
            var limit := if c.modelResultBytes < 30720 then c.modelResultBytes else 30720;
            Fits(style, f, c) <==>
            text == [] || (|Encode(Header(style, f))| + |text| <= limit && LineCount(text) <= 2000)
  {
    hide Header, Encode;
    assert LineCount([]) == 0;
  }

  /** Where the complete output is gets said if and only if the text was cut, or there was none, or the streams
      hold more than it. */
  lemma RecalledExactly(style: Style, f: Facts, c: Context)
    ensures var text := if f.text.Some? then f.text.value else [];
            var streams := (if f.stdout.Some? then f.stdout.value.size else 0) + (if f.stderr.Some? then f.stderr.value.size else 0);
            Recalls(style, f, c) <==> !Fits(style, f, c) || f.text.None? || streams > |text|
  {
    hide Header, Encode;
  }

  /** The preview of a text that is cut is at most 2 KiB, and fits behind the header. */
  lemma PreviewBudget(style: Style, f: Facts, c: Context)
    requires Valid(f.Body())
    ensures |Preview(f.Body(), Room(style, f, c))| <= 2048
    ensures var limit := if c.modelResultBytes < 30720 then c.modelResultBytes else 30720;
            || Preview(f.Body(), Room(style, f, c)) == []
            || |Encode(Header(style, f))| + |Preview(f.Body(), Room(style, f, c))| <= limit
    ensures Room(style, f, c) >= 2048 ==>
              Preview(f.Body(), Room(style, f, c)) == f.Body()[..HeadEnd(f.Body(), 2048)]
  {
    hide Header, Encode, HeadEnd, Valid;
    PreviewFits(f.Body(), Room(style, f, c));
  }

  /** The first line of a view, as the repository's own tests have it. */
  lemma HeaderReads(style: Style, f: Facts)
    requires f.tool == "python" && f.status.Completed? && style.duration(f.elapsed) == "1.2s"
    requires f.stdout.Some? && style.size(f.stdout.value.size) == "400 B" && f.stderr.None?
    ensures Header(style, f) == "[python · 完成 · 1.2s · stdout 400 B]\n"
  {
    assert StreamSize(style, "stdout", f.stdout) == " · stdout 400 B";
    assert StreamSize(style, "stderr", f.stderr) == "";
    hide StreamSize;
  }

  lemma HeaderOfAFailure(style: Style, f: Facts)
    requires f.tool == "bash" && f.status.Failed? && style.duration(f.elapsed) == "1.2s"
    requires f.stdout.Some? && style.size(f.stdout.value.size) == "400 B"
    requires f.stderr.Some? && style.size(f.stderr.value.size) == "5 B"
    ensures Header(style, f) == "[bash · 失败 · 1.2s · stdout 400 B · stderr 5 B]\n"
  {
    assert StreamSize(style, "stdout", f.stdout) == " · stdout 400 B";
    assert StreamSize(style, "stderr", f.stderr) == " · stderr 5 B";
    hide StreamSize;
    var first := "[" + "bash" + " · " + "失败" + " · " + "1.2s";
    assert first == "[bash · 失败 · 1.2s";
    assert first + " · stdout 400 B" == "[bash · 失败 · 1.2s · stdout 400 B";
    assert "[bash · 失败 · 1.2s · stdout 400 B" + " · stderr 5 B" + "]\n" == "[bash · 失败 · 1.2s · stdout 400 B · stderr 5 B]\n";
  }

  lemma HeaderOfADoubt(style: Style, f: Facts)
    requires f.tool == "bash" && f.status.Uncertain? && style.duration(f.elapsed) == "1.2s" && f.stdout.None? && f.stderr.None?
    ensures Header(style, f) == "[bash · 结果不明 · 1.2s]\n"
  {
  }

  function StoredAs(run: string, call: string, attempt: string, name: string): string {
    "tool-output/" + run + "/" + call + "/" + attempt + "/" + name
  }

  function ShownAs(run: string, call: string, attempt: string, name: string): string {
    "artifact://" + run + "/" + call + "/" + attempt + "/" + name
  }

  /** And the line that says where everything is: the result, and the streams there are. */
  lemma RecallReads(f: Facts, run: string, call: string, attempt: string)
    requires Resource.Plain(run) && Resource.Plain(call) && Resource.Plain(attempt)
    requires f.output == StoredAs(run, call, attempt, "output.json")
    requires f.stdout.Some? ==> f.stdout.value.path == StoredAs(run, call, attempt, "stdout.txt")
    requires f.stderr.Some? ==> f.stderr.value.path == StoredAs(run, call, attempt, "stderr.txt")
    ensures Recall(f) == "完整输出：" + ShownAs(run, call, attempt, "result") +
                         (match (f.stdout, f.stderr)
                          case (None, None) => ""
                          case (Some(_), None) => "（流：" + ShownAs(run, call, attempt, "stdout") + "）"
                          case (None, Some(_)) => "（流：" + ShownAs(run, call, attempt, "stderr") + "）"
                          case (Some(_), Some(_)) =>
                            "（流：" + ShownAs(run, call, attempt, "stdout") + "、" + ShownAs(run, call, attempt, "stderr") + "）") + "\n"
  {
    ReadAt(run, call, attempt, Resource.Result);
    ReadAt(run, call, attempt, Resource.Stdout);
    ReadAt(run, call, attempt, Resource.Stderr);
    hide StoredAs, ShownAs, WhereToRead;
  }

  lemma ReadAt(run: string, call: string, attempt: string, file: Resource.OutputFile)
    requires Resource.Plain(run) && Resource.Plain(call) && Resource.Plain(attempt)
    ensures WhereToRead(StoredAs(run, call, attempt, Resource.FileName(file)), file) == ShownAs(run, call, attempt, Resource.FileWord(file))
  {
    hide Resource.OutputUri, WhereToRead;
    Named(run, call, attempt, file);
    Resource.PrintedOutput(run, call, attempt, file);
    var path, word := Resource.FileName(file), Resource.FileWord(file);
    assert StoredAs(run, call, attempt, path) == "tool-output/" + (run + "/" + (call + "/" + (attempt + "/" + path)));
    assert "artifact" + "://" == "artifact://";
    assert "artifact" + "://" + (run + "/" + (call + "/" + (attempt + "/" + word))) == ShownAs(run, call, attempt, word);
  }

  /** A path the store did not write is shown as it is. */
  lemma StrangePathsStay(path: string, file: Resource.OutputFile)
    requires Resource.OutputUri(path, file).None?
    ensures path <= WhereToRead(path, file)
  {
  }

  /** What the notices say: of a text that was cut its bytes and lines, and how much is shown; of a short view the
      bytes and lines there were, and how many bytes lie between the two ends. */
  lemma NoticesSay(style: Style, length: nat, lines: nat, limit: nat, head: nat, omitted: nat)
    ensures StartsWith(CutNotice(style, length, lines, limit, head),
                       "…（正文 " + Decimal(length) + " 字节 / " + Decimal(lines) + " 行，超过单条结果上限（" + style.size(limit) + " / 2000 行）")
    ensures exists at :: StandsAt(CutNotice(style, length, lines, limit, head), at, "只给了开头 " + Decimal(head) + " 字节；")
    ensures DecayNotice(length, lines) ==
            "（这份结果前文已完整给过，此后只留首尾整行：原文 " + Decimal(length) + " 字节 / " + Decimal(lines) + " 行）\n"
  {
    hide Decimal;
    TwoThousand();
    var first := "…（正文 " + Decimal(length) + " 字节 / " + Decimal(lines) + " 行，超过单条结果上限（" + style.size(limit) + " / ";
    var shown := "只给了开头 " + Decimal(head) + " 字节；";
    var rest := "其余在下面的完整输出里，用 read 的 start_line/line_count 分段读，或用 rg 搜要的那几行）…\n";
    var notice := CutNotice(style, length, lines, limit, head);
    var before := first + "2000" + " 行），";
    assert " 行），只给了开头 " == " 行），" + "只给了开头 ";
    assert notice == first + "2000" + " 行），只给了开头 " + Decimal(head) + " 字节；" + rest;
    assert notice == before + shown + rest;
    assert StandsAt(notice, |before|, shown);
    assert notice[..|before|] == before;
    assert " / " + "2000" + " 行）" == " / 2000 行）";
    assert before[..|before| - 1] == "…（正文 " + Decimal(length) + " 字节 / " + Decimal(lines) + " 行，超过单条结果上限（" + style.size(limit) + " / 2000 行）";
  }

  lemma TwoThousand()
    ensures Decimal(MODEL_RESULT_LINES) == "2000"
  {
    assert Decimal(2) == "2" && Decimal(20) == "20" && Decimal(200) == "200";
  }

  /** The number of bytes left out can be read off. */
  lemma OmittedSays(a: nat, b: nat)
    ensures OmittedNotice(a) == OmittedNotice(b) ==> a == b
  {
    hide Decimal;
    if OmittedNotice(a) == OmittedNotice(b) {
      var before, behind := "…（中间省略 ", " 字节）…\n";
      DigitsOnly(a);
      DigitsOnly(b);
      assert behind == " " + "字节）…\n";
      assert OmittedNotice(a)[|before|..] == Decimal(a) + [' '] + "字节）…\n";
      assert OmittedNotice(b)[|before|..] == Decimal(b) + [' '] + "字节）…\n";
      CutOnce(Decimal(a), "字节）…\n", Decimal(b), "字节）…\n", ' ');
      DecimalValue(a);
      DecimalValue(b);
    }
  }

  lemma DigitsOnly(n: nat)
    ensures ' ' !in Decimal(n)
  {
    assert !IsDigit(' ');
  }

  /** An artifact's line: its address, which is its path, and its size. */
  lemma ArtifactLineReads(style: Style, rest: string, size: nat)
    requires ArtifactUri("artifacts/" + rest).Some?
    ensures ArtifactLine(style, Stored("artifacts/" + rest, size)) ==
            "产物：" + "artifact://files/" + TrimEnd(rest) + "（" + style.size(size) + "）\n"
  {
    hide ArtifactUri, TrimEnd;
    ArtifactAddress(rest);
    assert Resource.Print(Resource.ArtifactFile(TrimEnd(rest))) == "artifact://files/" + TrimEnd(rest) by {
      assert "artifact" + "://" + ("files" + "/" + TrimEnd(rest)) == "artifact://files/" + TrimEnd(rest);
    }
  }

  /** Nothing is said where there is nothing. */
  lemma NothingToName(style: Style)
    ensures Artifacts(style, []) == "" && Images(style, []) == ""
  {
  }

  /** Every image is named, with its kind and size. */
  lemma {:induction false} EveryImageIsNamed(style: Style, images: seq<Image>, i: nat) returns (at: nat)
    requires i < |images|
    ensures StandsAt(Images(style, images), at, "图片：" + images[i].mime + "（" + style.size(images[i].size) + "），已附在这条结果里\n")
  {
    hide StandsAt;
    var first, rest := "图片：" + images[0].mime + "（" + style.size(images[0].size) + "），已附在这条结果里\n", Images(style, images[1..]);
    assert Images(style, images) == first + rest;
    if i == 0 {
      at := 0;
      StandsFirst(first, rest);
    } else {
      var below := EveryImageIsNamed(style, images[1..], i - 1);
      at := |first| + below;
      StandsBehind(first, rest, below, "图片：" + images[i].mime + "（" + style.size(images[i].size) + "），已附在这条结果里\n");
    }
  }

  // ------------------------------------------------------------ size

  lemma EndLineAdds(out: Bytes)
    ensures out <= EndLine(out) && |EndLine(out)| <= |out| + 1
    ensures EndLine(out) != [] && EndLine(out)[|EndLine(out)| - 1] == NEWLINE
    ensures out != [] && out[|out| - 1] == 10 ==> EndLine(out) == out
  {
  }

  /** Main result: the full view is no longer than the header or the limit, whichever is larger, and one
      byte, besides the lines that say what was cut, where the rest is, and what comes with it. */
  lemma FullViewIsBounded(style: Style, f: Facts, c: Context)
    requires Valid(f.Body())
    ensures |Project(style, f, c)| <=
            Max(|Encode(Header(style, f))|, Limit(c)) + 1
            + (if Fits(style, f, c) then 0 else
                 |Encode(CutNotice(style, |f.Body()|, LineCount(f.Body()), Limit(c), |Preview(f.Body(), Room(style, f, c))|))|)
            + |Tail(style, f, Recalls(style, f, c))|
  {
    hide Header, Encode, Tail, EndLine, LineCount, Floor, LastNewline, Valid, CutNotice, IsBoundary;
    var header := Encode(Header(style, f));
    if Fits(style, f, c) {
      EndLineAdds(header + f.Body());
    } else {
      var head := Preview(f.Body(), Room(style, f, c));
      PreviewFits(f.Body(), Room(style, f, c));
      EndLineAdds(header + head);
    }
  }

  lemma PreviewFits(text: Bytes, room: nat)
    requires Valid(text)
    ensures |Preview(text, room)| <= room && |Preview(text, room)| <= PREVIEW_BYTES
    ensures Preview(text, room) <= text && Valid(Preview(text, room))
  {
    hide Floor, LastNewline, Valid, IsBoundary, HeadEnd;
    HeadEndIsGood(text, Min(PREVIEW_BYTES, room));
    BoundaryMeansSplit(text, HeadEnd(text, Min(PREVIEW_BYTES, room)));
  }

  // ------------------------------------------------------------ honesty

  /** `part` stands in `view` at offset `at`. */
  predicate Shows(view: Bytes, at: nat, part: Bytes) {
    at + |part| <= |view| && view[at..at + |part|] == part
  }

  /** Main result: what is left out is always said. A full view without the line that says where the
      complete output is holds the whole text, and no stream holds more than the text does; a view that
      does not hold the whole text says how much of how much it shows, and then where the rest is. */
  lemma NothingIsLeftOutSilently(style: Style, f: Facts, c: Context)
    requires Valid(f.Body())
    ensures var view, h, text := Project(style, f, c), Encode(Header(style, f)), f.Body();
            && Shows(view, 0, h)
            && (!Recalls(style, f, c) ==>
                  f.text.Some? && Shows(view, |h|, text) && SizeOf(f.stdout) + SizeOf(f.stderr) <= |text|)
            && (!Shows(view, |h|, text) ==>
                  var shown := Preview(text, Room(style, f, c));
                  && shown <= text
                  && view == EndLine(h + shown)
                             + Encode(CutNotice(style, |text|, LineCount(text), Limit(c), |shown|))
                             + (Encode(Recall(f)) + Encode(Artifacts(style, f.artifacts)) + Encode(Images(style, f.images))))
  {
    hide Header, Encode, EndLine, LineCount, Valid, CutNotice, Recall, Artifacts, Images, Preview;
    var h, text := Encode(Header(style, f)), f.Body();
    var view := Project(style, f, c);
    if Fits(style, f, c) {
      EndLineAdds(h + text);
      assert view == EndLine(h + text) + Tail(style, f, Recalls(style, f, c));
      Inside(view, h, text, EndLine(h + text), Tail(style, f, Recalls(style, f, c)));
    } else {
      var shown := Preview(text, Room(style, f, c));
      PreviewFits(text, Room(style, f, c));
      EndLineAdds(h + shown);
      var rest := Encode(CutNotice(style, |text|, LineCount(text), Limit(c), |shown|)) + Tail(style, f, true);
      assert view == EndLine(h + shown) + rest;
      Inside(view, h, shown, EndLine(h + shown), rest);
    }
  }

  lemma Inside(view: Bytes, h: Bytes, text: Bytes, line: Bytes, rest: Bytes)
    requires view == line + rest && h + text <= line
    ensures Shows(view, 0, h) && Shows(view, |h|, text)
  {
    assert (h + text)[|h|..] == text;
    assert line[..|h + text|] == h + text;
  }

  /** A view that shows a beginning and an end of a text, and how much lies between them. */
  predicate ShowsEnds(view: Bytes, out: Bytes, end: Bytes, head: Bytes, middle: Bytes, tail: Bytes) {
    && middle != []
    && view == EndLine(EndLine(out + head) + Encode(OmittedNotice(|middle|)) + tail) + end
  }

  /** Main result: a short view exists only for a completed result above the threshold, and it is at least
      1024 bytes shorter than the full view. It always says where the complete output is; and it shows the
      whole text if that fits the two budgets, or else a beginning and an end that do, with the exact
      number of bytes between them. */
  lemma ShortViewIsHonest(style: Style, f: Facts, c: Context)
    requires Valid(f.Body())
    ensures var views, text := ProjectViews(style, f, c), f.Body();
            && (views.decayed.Some? <==>
                  && f.status.Completed? && c.decay.Some? && |views.full| > c.decay.value.threshold
                  && |Decay(style, f, c.decay.value)| + 1024 <= |views.full|)
            && (views.decayed.Some? ==> ShowsShort(style, f, c.decay.value, views.decayed.value))
  {
    hide Project, ShowsShort, Decay;
    if c.decay.Some? {
      DecayShows(style, f, c.decay.value);
    }
  }

  /** The whole text if it fits the two budgets, or else a beginning and an end of it that do, with the
      number of bytes between them; and then, always, where the complete output is. */
  ghost predicate ShowsShort(style: Style, f: Facts, p: DecayPolicy, view: Bytes) {
    var text := f.Body();
    var out := Encode(Header(style, f)) + Encode(DecayNotice(|text|, LineCount(text)));
    var end := Encode(Recall(f)) + Encode(Artifacts(style, f.artifacts)) + Encode(Images(style, f.images));
    if |text| <= p.headBytes + p.tailBytes then view == EndLine(out + text) + end
    else exists head, middle, tail ::
           && text == head + middle + tail
           && |head| <= p.headBytes && |tail| <= p.tailBytes
           && ShowsEnds(view, out, end, head, middle, tail)
  }

  lemma DecayShows(style: Style, f: Facts, p: DecayPolicy)
    requires Valid(f.Body())
    ensures ShowsShort(style, f, p, Decay(style, f, p))
  {
    hide Header, Encode, EndLine, LineCount, Valid, DecayNotice, Recall, Artifacts, Images, ShowsEnds;
    var text := f.Body();
    var out := Encode(Header(style, f)) + Encode(DecayNotice(|text|, LineCount(text)));
    var end := Encode(Recall(f)) + Encode(Artifacts(style, f.artifacts)) + Encode(Images(style, f.images));
    var x := Excerpt(text, p.headBytes, p.tailBytes);
    ExcerptAccounts(text, p.headBytes, p.tailBytes);
    if |text| > p.headBytes + p.tailBytes {
      var middle := text[|x.head|..|x.head| + x.omitted];
      MiddleIsLeft(text, x, middle);
      ExcerptShows(out, end, x, middle);
    }
  }

  lemma MiddleIsLeft(text: Bytes, x: Truncated, middle: Bytes)
    requires |x.head| + x.omitted + |x.tail| == |text| && x.head <= text
    requires x.tail == text[|text| - |x.tail|..] && middle == text[|x.head|..|x.head| + x.omitted]
    ensures text == x.head + middle + x.tail
  {
  }

  lemma ExcerptShows(out: Bytes, end: Bytes, x: Truncated, middle: Bytes)
    requires |middle| == x.omitted > 0
    ensures ShowsEnds(PushExcerpt(out, x) + end, out, end, x.head, middle, x.tail)
  {
    hide EndLine, Encode, OmittedNotice;
  }

  /** Choosing a view never makes the text longer, and choosing the short one saves at least 1024 bytes if there is one. */
  lemma SelectSaves(style: Style, f: Facts, c: Context, decayed: bool)
    requires Valid(f.Body())
    ensures var views := ProjectViews(style, f, c);
            if decayed && views.decayed.Some?
            then |Select(views, decayed)| + 1024 <= |views.full|
            else Select(views, decayed) == Project(style, f, c)
  {
    hide Project, Decay;
  }

  lemma StandsBehind(first: string, rest: string, at: nat, part: string)
    requires StandsAt(rest, at, part)
    ensures StandsAt(first + rest, |first| + at, part)
  {
    assert (first + rest)[|first| + at..|first| + at + |part|] == rest[at..at + |part|];
  }

  lemma StandsFirst(first: string, rest: string)
    ensures StandsAt(first + rest, 0, first)
  {
  }

  /** Every artifact that has an address is named, with its size, in every view's last lines. */
  lemma {:induction false} EveryArtifactIsNamed(style: Style, artifacts: seq<Stored>, i: nat) returns (at: nat)
    requires i < |artifacts|
    ensures StandsAt(Artifacts(style, artifacts), at, ArtifactLine(style, artifacts[i]))
    ensures ArtifactLine(style, artifacts[i]) == "" <==> ArtifactUri(artifacts[i].path).None?
  {
    hide *;
    LineNamesIt(style, artifacts[i]);
    var first, rest := ArtifactLine(style, artifacts[0]), Artifacts(style, artifacts[1..]);
    FirstArtifact(style, artifacts);
    if i == 0 {
      at := 0;
      StandsFirst(first, rest);
    } else {
      var below := EveryArtifactIsNamed(style, artifacts[1..], i - 1);
      at := |first| + below;
      StandsBehind(first, rest, below, ArtifactLine(style, artifacts[i]));
    }
  }

  lemma FirstArtifact(style: Style, artifacts: seq<Stored>)
    requires artifacts != []
    ensures Artifacts(style, artifacts) == ArtifactLine(style, artifacts[0]) + Artifacts(style, artifacts[1..])
  {
  }

  lemma LineNamesIt(style: Style, a: Stored)
    ensures ArtifactLine(style, a) == "" <==> ArtifactUri(a.path).None?
  {
    hide ArtifactUri, Resource.Print;
  }

  // ------------------------------------------------------------ views are text

  lemma Encoded(s: string)
    ensures Valid(Encode(s))
  {
    DecodeEncode(s, []);
    NothingIsValid();
    assert Encode(s) + [] == Encode(s);
  }

  lemma EndLineValid(out: Bytes)
    requires Valid(out)
    ensures Valid(EndLine(out))
  {
    ValidAppend(out, [NEWLINE]);
    var nl: Bytes := [NEWLINE];
    assert CharLen(nl) == 1;
    NothingIsValid();
    assert nl[1..] == [];
  }

  lemma TailValid(style: Style, f: Facts, recall: bool)
    ensures Valid(Tail(style, f, recall))
  {
    hide Recall, Artifacts, Images, Encode, Valid;
    Encoded(Recall(f));
    Encoded(Artifacts(style, f.artifacts));
    Encoded(Images(style, f.images));
    NothingIsValid();
    var r := if recall then Encode(Recall(f)) else [];
    ValidAppend(r, Encode(Artifacts(style, f.artifacts)));
    ValidAppend(r + Encode(Artifacts(style, f.artifacts)), Encode(Images(style, f.images)));
  }

  lemma PushExcerptValid(out: Bytes, x: Truncated)
    requires Valid(out) && Valid(x.head) && Valid(x.tail)
    ensures Valid(PushExcerpt(out, x))
  {
    hide Encode, Valid, EndLine, OmittedNotice;
    ValidAppend(out, x.head);
    EndLineValid(out + x.head);
    Encoded(OmittedNotice(x.omitted));
    ValidAppend(EndLine(out + x.head), Encode(OmittedNotice(x.omitted)));
    ValidAppend(EndLine(out + x.head) + Encode(OmittedNotice(x.omitted)), x.tail);
    EndLineValid(EndLine(out + x.head) + Encode(OmittedNotice(x.omitted)) + x.tail);
  }

  /** Main result: no view ever cuts a character apart. */
  lemma ViewsAreText(style: Style, f: Facts, c: Context, decayed: bool)
    requires Valid(f.Body())
    ensures Valid(Select(ProjectViews(style, f, c), decayed))
  {
    hide Project, Decay, Valid;
    FullViewIsText(style, f, c);
    if c.decay.Some? {
      ShortViewIsText(style, f, c.decay.value);
    }
  }

  lemma FullViewIsText(style: Style, f: Facts, c: Context)
    requires Valid(f.Body())
    ensures Valid(Project(style, f, c))
  {
    hide Header, Encode, Valid, Tail, EndLine, CutNotice, LineCount, Preview, PushExcerpt;
    var h := Encode(Header(style, f));
    Encoded(Header(style, f));
    TailValid(style, f, Recalls(style, f, c));
    NothingIsValid();
    if Fits(style, f, c) {
      PushExcerptValid(h, Whole(f.Body()));
      ValidAppend(PushExcerpt(h, Whole(f.Body())), Tail(style, f, Recalls(style, f, c)));
    } else {
      var shown := Preview(f.Body(), Room(style, f, c));
      var notice := CutNotice(style, |f.Body()|, LineCount(f.Body()), Limit(c), |shown|);
      PreviewFits(f.Body(), Room(style, f, c));
      ValidAppend(h, shown);
      EndLineValid(h + shown);
      Encoded(notice);
      ValidAppend(EndLine(h + shown), Encode(notice));
      ValidAppend(EndLine(h + shown) + Encode(notice), Tail(style, f, true));
    }
  }

  lemma ShortViewIsText(style: Style, f: Facts, p: DecayPolicy)
    requires Valid(f.Body())
    ensures Valid(Decay(style, f, p))
  {
    hide Header, Encode, Valid, Tail, DecayNotice, LineCount, PushExcerpt;
    var notice := DecayNotice(|f.Body()|, LineCount(f.Body()));
    Encoded(Header(style, f));
    Encoded(notice);
    ValidAppend(Encode(Header(style, f)), Encode(notice));
    ExcerptAccounts(f.Body(), p.headBytes, p.tailBytes);
    PushExcerptValid(Encode(Header(style, f)) + Encode(notice), Excerpt(f.Body(), p.headBytes, p.tailBytes));
    TailValid(style, f, true);
    ValidAppend(PushExcerpt(Encode(Header(style, f)) + Encode(notice), Excerpt(f.Body(), p.headBytes, p.tailBytes)),
                Tail(style, f, true));
  }

  // ------------------------------------------------------------ addresses

  /** Main result: the address in a view, for a file the store wrote, is read back as the address of
      that very file, if and only if each identifier is a UUID as it is printed, or a decimal number not
      of 32 digits. */
  lemma RecallLeadsBack(run: string, call: string, attempt: string, file: Resource.OutputFile)
    requires Resource.Plain(run) && Resource.Plain(call) && Resource.Plain(attempt)
    ensures var path := Resource.OutputPath(run, call, attempt, Resource.FileName(file));
            var u := Resource.Output(run, call, attempt, file);
            && Resource.OutputFilePath(u) == Some(path)
            && (Resource.Parse(WhereToRead(path, file)) == Ok(u) <==>
                Resource.Readable(run) && Resource.Readable(call) && Resource.Readable(attempt))
  {
    hide *;
    Resource.PathsAndAddresses(run, call, attempt, file) by { PlainMeans(run); PlainMeans(call); PlainMeans(attempt); }
    Resource.OutputReadsBack(run, call, attempt, file);
    Named(run, call, attempt, file);
  }

  lemma PlainMeans(id: string)
    requires Resource.Plain(id)
    ensures id != "" && '/' !in id
  {
  }

  lemma Named(run: string, call: string, attempt: string, file: Resource.OutputFile)
    requires Resource.Plain(run) && Resource.Plain(call) && Resource.Plain(attempt)
    ensures WhereToRead(Resource.OutputPath(run, call, attempt, Resource.FileName(file)), file) ==
            Resource.Print(Resource.Output(run, call, attempt, file))
  {
    hide Resource.OutputPath, Resource.Print, Resource.OutputUri;
    Resource.PathsAndAddresses(run, call, attempt, file);
  }

  /** An artifact has an address exactly if no part of its path, less the space at its end, could leave the
      folder; the address is that path, so with space at the end it names another file. */
  lemma ArtifactAddress(rest: string)
    ensures ArtifactUri("artifacts/" + rest) ==
            if forall p :: p in Resource.Segments(TrimEnd(rest)) ==> Resource.Safe(p)
            then Some(Resource.ArtifactFile(TrimEnd(rest))) else None
  {
    hide Resource.Segments, Resource.Join, IsSpace, Resource.SplitScheme, Resource.Safe, TrimEnd;
    var path := "artifacts/" + rest;
    assert path[|"artifacts/"|..] == rest;
    var kept := TrimEnd(rest);
    TrimArtifact(rest);
    Resource.SchemeIsCut("artifact", Resource.ARTIFACT_FILES + "/" + kept);
    Resource.FirstSegment(Resource.ARTIFACT_FILES, kept);
    Resource.JoinSegments(kept);
    Resource.NoSpaceInArtifact();
    FilesIsSafe();
    var parts := [Resource.ARTIFACT_FILES] + Resource.Segments(kept);
    assert parts[1..] == Resource.Segments(kept);
    assert forall p :: p in parts <==> p == Resource.ARTIFACT_FILES || p in Resource.Segments(kept);
  }

  lemma FilesIsSafe()
    ensures Resource.Safe(Resource.ARTIFACT_FILES)
  {
  }

  /** A stored path that ends in a space: its address is the one of another path. */
  lemma SpaceAtTheEndIsLost()
    ensures ArtifactUri("artifacts/1/a ") == Some(Resource.ArtifactFile("1/a"))
    ensures ArtifactUri("artifacts/1/a") == ArtifactUri("artifacts/1/a ")
  {
    hide *;
    ArtifactAddress("1/a ");
    ArtifactAddress("1/a");
    Shortened();
    OneSlashA();
    assert "artifacts/" + "1/a " == "artifacts/1/a ";
    assert "artifacts/" + "1/a" == "artifacts/1/a";
  }

  lemma Shortened()
    ensures TrimEnd("1/a ") == TrimEnd("1/a") == "1/a"
  {
    assert "1/a "[..3] == "1/a";
  }

  lemma OneSlashA()
    ensures forall p :: p in Resource.Segments("1/a") ==> Resource.Safe(p)
  {
    SplitFirst("1", "a", '/');
    assert "1" + ['/'] + "a" == "1/a";
    assert Split("a", '/') == ["a"];
  }

  lemma TrimArtifact(rest: string)
    ensures Trim("artifact" + "://" + (Resource.ARTIFACT_FILES + "/" + rest)) ==
            "artifact" + "://" + (Resource.ARTIFACT_FILES + "/" + TrimEnd(rest))
  {
    var before := "artifact" + "://" + (Resource.ARTIFACT_FILES + "/");
    assert "artifact" + "://" + (Resource.ARTIFACT_FILES + "/" + rest) == before + rest;
    assert "artifact" + "://" + (Resource.ARTIFACT_FILES + "/" + TrimEnd(rest)) == before + TrimEnd(rest);
    assert (before + rest)[0] == 'a';
    TrimEndKeeps(before, rest);
  }

  lemma {:induction false} TrimEndKeeps(before: string, rest: string)
    requires before != "" && !IsSpace(before[|before| - 1])
    ensures TrimEnd(before + rest) == before + TrimEnd(rest)
  {
    if rest == "" {
      assert before + rest == before;
    } else {
      var s := before + rest;
      assert s[|s| - 1] == rest[|rest| - 1];
      assert s[..|s| - 1] == before + rest[..|rest| - 1];
      TrimEndKeeps(before, rest[..|rest| - 1]);
    }
  }
}
