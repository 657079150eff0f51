/** Resource addresses (crates/komo-kernel/src/types/resource.rs): what the model is given to read with,
    and the file an address stands for. */
module Resource {
  import opened Text

  datatype OutputFile = Stdout | Stderr | Background | Result

  function FileWord(f: OutputFile): string {
    match f
    case Stdout => "stdout"
    case Stderr => "stderr"
    case Background => "background"
    case Result => "result"
  }

  function FileName(f: OutputFile): string {
    match f
    case Stdout => "stdout.txt"
    case Stderr => "stderr.txt"
    case Background => "background.log"
    case Result => "output.json"
  }

  function ParseFile(s: string): Option<OutputFile> {
    if s == "stdout" then Some(Stdout)
    else if s == "stderr" then Some(Stderr)
    else if s == "background" then Some(Background)
    else if s == "result" then Some(Result)
    else None
  }

  datatype ToolPart = Schema | Doc

  function PartWord(p: ToolPart): string { if p.Schema? then "schema" else "doc" }

  function ParsePart(s: string): Option<ToolPart> {
    if s == "schema" then Some(Schema) else if s == "doc" then Some(Doc) else None
  }

  datatype ResourceUri =
    | Skill(name: string, path: string)
    | SkillRoot
    | Tool(name: string, part: ToolPart)
    | ToolRoot
    | ArtifactFile(path: string)
    | ArtifactRoot
    | Output(run: string, call: string, attempt: string, file: OutputFile)

  datatype UriError = NotAResource | UnknownPart | Traversal | Missing | BadId

  const ARTIFACT_FILES := "files"

  // ------------------------------------------------------------ segments

  function Segments(s: string): (parts: seq<string>)
    ensures |parts| > 0
  {
    Split(s, '/')
  }

  function Join(parts: seq<string>): string
    requires |parts| > 0
  {
    if |parts| == 1 then parts[0] else parts[0] + "/" + Join(parts[1..])
  }

  lemma FirstSegment(a: string, rest: string)
    requires '/' !in a
    ensures Segments(a + "/" + rest) == [a] + Segments(rest)
  {
    SplitFirst(a, rest, '/');
  }

  lemma JoinFirst(first: string, parts: seq<string>)
    requires |parts| > 0
    ensures Join([first] + parts) == first + "/" + Join(parts)
  {
    assert ([first] + parts)[1..] == parts;
  }

  lemma {:induction false} JoinSegments(s: string)
    ensures Join(Segments(s)) == s
    decreases |s|
  {
    if '/' in s {
      var i := IndexOf(s, '/');
      JoinSegments(s[i + 1..]);
      assert Segments(s) == [s[..i]] + Segments(s[i + 1..]);
      JoinFirst(s[..i], Segments(s[i + 1..]));
      assert s[..i] + "/" + s[i + 1..] == s;
    }
  }

  lemma {:induction false} SegmentsAreFree(s: string)
    ensures forall p :: p in Segments(s) ==> '/' !in p
    decreases |s|
  {
    if '/' in s {
      SegmentsAreFree(s[IndexOf(s, '/') + 1..]);
    }
  }

  /** Splitting undoes joining exactly when no part holds the separator. */
  lemma {:induction false} SegmentsJoin(parts: seq<string>)
    requires |parts| > 0 && forall p :: p in parts ==> '/' !in p
    ensures Segments(Join(parts)) == parts
  {
    if |parts| > 1 {
      SegmentsJoin(parts[1..]);
      FirstSegment(parts[0], Join(parts[1..]));
    } else {
      assert parts == [parts[0]];
    }
  }

  /** A segment that cannot leave the place it is mounted at. */
  predicate Safe(segment: string) { segment != "" && segment != "." && segment != ".." }

  function SplitSegments(rest: string): Option<seq<string>> {
    if rest == "" then Some([])
    else if forall p :: p in Segments(rest) ==> Safe(p) then Some(Segments(rest))
    else None
  }

  // ------------------------------------------------------------ reading an address

  function SplitScheme(s: string): Option<(string, string)> {
    if StartsWith(s, "://") then Some(("", s[3..]))
    else if s == "" then None
    else match SplitScheme(s[1..]) {
        case None => None
        case Some(cut) => Some(([s[0]] + cut.0, cut.1))
      }
  }

  // ------------------------------------------------------------ identifiers

  predicate Hex(c: char) { IsDigit(c) || 'a' <= c <= 'f' || 'A' <= c <= 'F' }

  /** Where a UUID has its hyphens. */
  predicate Dash(i: nat) { i == 8 || i == 13 || i == 18 || i == 23 }

  predicate Hyphenated(s: string) {
    |s| == 36 && forall i :: 0 <= i < 36 ==> if Dash(i) then s[i] == '-' else Hex(s[i])
  }

  function Hyphenate(s: string): string
    requires |s| == 32
  {
    s[..8] + "-" + s[8..12] + "-" + s[12..16] + "-" + s[16..20] + "-" + s[20..]
  }

  /** Version 1 of the uuid library accepts 32 hexadecimal digits, or the hyphenated form, or that in braces
      or as a URN; the value is printed hyphenated and in lower case. */
  function ParseUuid(s: string): Option<string> {
    if |s| == 32 && forall c :: c in s ==> Hex(c) then Some(Lower(Hyphenate(s)))
    else if Hyphenated(s) then Some(Lower(s))
    else if |s| == 38 && s[0] == '{' && s[37] == '}' && Hyphenated(s[1..37]) then Some(Lower(s[1..37]))
    else if |s| == 45 && StartsWith(s, "urn:uuid:") && Hyphenated(s[9..]) then Some(Lower(s[9..]))
    else None
  }

  predicate Digits(s: string) { s != "" && forall c :: c in s ==> IsDigit(c) }

  /** Reading an identifier: a UUID comes back in its canonical form. */
  function ParseId(s: string): Option<string> {
    if ParseUuid(s).Some? then ParseUuid(s) else if Digits(s) then Some(s) else None
  }

  predicate Canonical(s: string) {
    Hyphenated(s) && forall c :: c in s ==> !('A' <= c <= 'F')
  }

  /** An identifier that reading leaves as it is: a UUID as it is printed, or a decimal number, but not one
      of 32 digits. */
  predicate Readable(id: string) {
    Canonical(id) || (Digits(id) && |id| != 32)
  }

  lemma LowerIsCanonical(s: string)
    requires Hyphenated(s)
    ensures Canonical(Lower(s)) && (Lower(s) == s <==> Canonical(s))
  {
    var t := Lower(s);
    forall i | 0 <= i < 36
      ensures if Dash(i) then t[i] == '-' else Hex(t[i])
      ensures !('A' <= t[i] <= 'F')
    {
    }
    if Canonical(s) {
      forall i | 0 <= i < 36 ensures t[i] == s[i] {
        assert s[i] in s;
      }
    }
  }

  lemma HyphenateIs(s: string)
    requires |s| == 32 && forall c :: c in s ==> Hex(c)
    ensures Hyphenated(Hyphenate(s))
  {
    var t := Hyphenate(s);
    assert |t| == 36;
    forall i | 0 <= i < 36
      ensures if Dash(i) then t[i] == '-' else Hex(t[i])
    {
      if !Dash(i) {
        var k := if i < 8 then i else if i < 13 then i - 1 else if i < 18 then i - 2 else if i < 23 then i - 3 else i - 4;
        assert t[i] == s[k] && s[k] in s;
      }
    }
  }

  lemma UuidComesBack(s: string)
    requires ParseUuid(s).Some?
    ensures Canonical(ParseUuid(s).value)
  {
    hide Hyphenate, Hyphenated, Canonical, Lower;
    if |s| == 32 && forall c :: c in s ==> Hex(c) {
      HyphenateIs(s);
      LowerIsCanonical(Hyphenate(s));
    } else if Hyphenated(s) {
      LowerIsCanonical(s);
    } else if |s| == 38 {
      LowerIsCanonical(s[1..37]);
    } else {
      LowerIsCanonical(s[9..]);
    }
  }

  lemma UuidIsNoShortNumber(id: string)
    requires ParseUuid(id).Some? && Digits(id)
    ensures |id| == 32
  {
    hide Hyphenate;
    assert |id| == 38 ==> id[0] in id;
    assert |id| == 45 ==> id[0] in id && id[..9][0] == id[0] && "urn:uuid:"[0] == 'u';
    assert |id| == 36 ==> id[8] in id;
  }

  lemma HyphenatedIsUuid(id: string)
    requires Hyphenated(id)
    ensures ParseUuid(id) == Some(Lower(id))
  {
  }

  /** Main result: reading leaves an identifier alone exactly if its characters say so. */
  lemma ReadingLeavesAlone(id: string)
    ensures ParseId(id) == Some(id) <==> Readable(id)
  {
    hide ParseUuid, Lower, Digits;
    if Hyphenated(id) {
      HyphenatedIsUuid(id);
      LowerIsCanonical(id);
      NoDigits(id);
    } else if ParseUuid(id).Some? {
      UuidComesBack(id);
      if Digits(id) {
        UuidIsNoShortNumber(id);
      }
    } else if Digits(id) {
      ShortOfUuid(id);
    }
  }

  lemma NoDigits(id: string)
    requires Hyphenated(id)
    ensures !Digits(id)
  {
    assert id[8] in id;
  }

  lemma ReadableIsPlain(id: string)
    requires Readable(id)
    ensures Plain(id) && id != ARTIFACT_FILES
  {
    assert id[0] in id;
    if Canonical(id) {
      assert forall c :: c in id ==> c != '/';
    } else {
      assert !IsDigit('/') && !IsDigit('.') && !IsDigit('f');
      assert ARTIFACT_FILES[0] == 'f';
    }
  }

  /** A decimal identifier of 32 digits is taken for a UUID, and comes back with hyphens in it. */
  lemma LongNumberIsTakenForAUuid(id: string)
    requires Digits(id) && |id| == 32
    ensures ParseId(id) == Some(Hyphenate(id)) && Hyphenate(id) != id
  {
    hide Hyphenate, Lower;
    assert forall c :: c in id ==> Hex(c);
    HyphenateIs(id);
    HyphenatedDigits(id);
    LowerIsCanonical(Hyphenate(id));
  }

  lemma HyphenatedDigits(id: string)
    requires Digits(id) && |id| == 32
    ensures forall c :: c in Hyphenate(id) ==> c == '-' || IsDigit(c)
  {
  }

  function ParseOutput(parts: seq<string>): Result<ResourceUri, UriError>
    requires |parts| == 4
  {
    match (ParseId(parts[0]), ParseId(parts[1]), ParseId(parts[2]), ParseFile(parts[3]))
    case (Some(run), Some(call), Some(attempt), Some(file)) => Ok(Output(run, call, attempt, file))
    case (Some(_), Some(_), Some(_), None) => Err(UnknownPart)
    case _ => Err(BadId)
  }

  function ParseParts(scheme: string, parts: seq<string>): Result<ResourceUri, UriError> {
    if scheme == "skill" then
      if |parts| == 0 then Ok(SkillRoot)
      else if |parts| == 1 then Err(Missing)
      else Ok(Skill(parts[0], Join(parts[1..])))
    else if scheme == "tool" then
      if |parts| == 0 then Ok(ToolRoot)
      else if |parts| == 2 && ParsePart(parts[1]).Some? then Ok(Tool(parts[0], ParsePart(parts[1]).value))
      else Err(UnknownPart)
    else if scheme == "artifact" then
      if |parts| == 0 then Err(Missing)
      else if parts[0] == ARTIFACT_FILES then
        if |parts| == 1 then Ok(ArtifactRoot) else Ok(ArtifactFile(Join(parts[1..])))
      else if |parts| == 4 then ParseOutput(parts)
      else Err(UnknownPart)
    else Err(NotAResource)
  }

  function Parse(raw: string): Result<ResourceUri, UriError> {
    match SplitScheme(Trim(raw)) {
      case None => Err(NotAResource)
      case Some((scheme, rest)) =>
        if scheme == "" || exists c :: c in scheme && IsSpace(c) then Err(NotAResource)
        else match SplitSegments(rest) {
            case None => Err(Traversal)
            case Some(parts) => ParseParts(scheme, parts)
          }
    }
  }

  // ------------------------------------------------------------ printing it

  function Print(u: ResourceUri): string {
    match u
    case Skill(name, path) => "skill" + "://" + (name + "/" + path)
    case SkillRoot => "skill" + "://" + ""
    case Tool(name, part) => "tool" + "://" + (name + "/" + PartWord(part))
    case ToolRoot => "tool" + "://" + ""
    case ArtifactFile(path) => "artifact" + "://" + (ARTIFACT_FILES + "/" + path)
    case ArtifactRoot => "artifact" + "://" + ARTIFACT_FILES
    case Output(run, call, attempt, file) =>
      "artifact" + "://" + (run + "/" + (call + "/" + (attempt + "/" + FileWord(file))))
  }

  lemma {:induction false} SchemeIsCut(scheme: string, rest: string)
    requires ':' !in scheme
    ensures SplitScheme(scheme + "://" + rest) == Some((scheme, rest))
  {
    var s := scheme + "://" + rest;
    if scheme == "" {
      assert s[..3] == "://" && s[3..] == rest;
    } else {
      assert s[0] == scheme[0] && scheme[0] in scheme;
      assert s[1..] == scheme[1..] + "://" + rest;
      SchemeIsCut(scheme[1..], rest);
      assert s[..3][0] != "://"[0];
      assert [s[0]] + scheme[1..] == scheme;
    }
  }

  lemma {:induction false} CutIsScheme(s: string)
    requires SplitScheme(s).Some?
    ensures s == SplitScheme(s).value.0 + "://" + SplitScheme(s).value.1
  {
    if StartsWith(s, "://") {
      assert s == s[..3] + s[3..];
    } else {
      CutIsScheme(s[1..]);
    }
  }

  predicate Plain(id: string) { Safe(id) && '/' !in id }

  lemma TrimLeaves(s: string)
    requires Tight(s)
    ensures Trim(s) == s
  {
  }

  /** Main result: the address printed for an output is read back as that output if and only if each of its
      three identifiers is a UUID as it is printed, or a decimal number not of 32 digits. */
  lemma OutputReadsBack(run: string, call: string, attempt: string, file: OutputFile)
    requires Plain(run) && Plain(call) && Plain(attempt)
    ensures Parse(Print(Output(run, call, attempt, file))) == Ok(Output(run, call, attempt, file)) <==>
            Readable(run) && Readable(call) && Readable(attempt)
  {
    hide *;
    var parts := [run, call, attempt, FileWord(file)];
    var rest := run + "/" + (call + "/" + (attempt + "/" + FileWord(file)));
    var s := "artifact" + "://" + rest;
    PrintedOutput(run, call, attempt, file);
    FourParts(run, call, attempt, FileWord(file));
    WordIsPlain(file);
    SplitsBack(parts);
    EndsTight(file, "artifact" + "://" + (run + "/" + (call + "/" + attempt)));
    assert s == "artifact" + "://" + (run + "/" + (call + "/" + attempt)) + "/" + FileWord(file);
    TrimLeaves(s);
    ParseArtifact(s, parts);
    ReadsParts(run, call, attempt, file);
  }

  lemma PrintedOutput(run: string, call: string, attempt: string, file: OutputFile)
    ensures Print(Output(run, call, attempt, file)) ==
            "artifact" + "://" + (run + "/" + (call + "/" + (attempt + "/" + FileWord(file))))
  {
  }

  lemma SplitsBack(parts: seq<string>)
    requires |parts| > 0 && forall p :: p in parts ==> Plain(p)
    ensures SplitSegments(Join(parts)) == Some(parts)
  {
    SegmentsJoin(parts);
    assert parts[0] in parts;
  }

  lemma ParseArtifact(s: string, parts: seq<string>)
    requires |parts| > 0 && SplitSegments(Join(parts)) == Some(parts)
    requires s == "artifact" + "://" + Join(parts) && Trim(s) == s
    ensures Parse(s) == ParseParts("artifact", parts)
  {
    hide Join, SplitSegments, Trim, ParseParts;
    SchemeIsCut("artifact", Join(parts));
    NoSpaceInArtifact();
  }

  lemma ReadsParts(run: string, call: string, attempt: string, file: OutputFile)
    ensures ParseParts("artifact", [run, call, attempt, FileWord(file)]) == Ok(Output(run, call, attempt, file)) <==>
            Readable(run) && Readable(call) && Readable(attempt)
  {
    hide ParseId, Readable, FileWord, ParseFile;
    WordIsPlain(file);
    ReadingLeavesAlone(run);
    ReadingLeavesAlone(call);
    ReadingLeavesAlone(attempt);
    if Readable(run) {
      ReadableIsPlain(run);
    }
  }

  lemma FourParts(a: string, b: string, c: string, d: string)
    ensures Join([a, b, c, d]) == a + "/" + (b + "/" + (c + "/" + d))
  {
    assert [a, b, c, d][1..] == [b, c, d];
    assert [b, c, d][1..] == [c, d];
    assert [c, d][1..] == [d];
    assert Join([d]) == d;
    assert Join([c, d]) == c + "/" + d;
    assert Join([b, c, d]) == b + "/" + Join([c, d]);
  }

  lemma WordIsPlain(file: OutputFile)
    ensures Plain(FileWord(file)) && ParseFile(FileWord(file)) == Some(file)
  {
  }

  lemma NoSpaceInArtifact()
    ensures forall c :: c in "artifact" ==> !IsSpace(c)
  {
  }

  lemma EndsTight(file: OutputFile, before: string)
    requires StartsWith(before, "artifact")
    ensures Tight(before + "/" + FileWord(file))
  {
    var s := before + "/" + FileWord(file);
    assert s[0] == before[..8][0] == 'a';
    assert s[|s| - 1] == FileWord(file)[|FileWord(file)| - 1];
  }

  // ------------------------------------------------------------ paths in a session

  function OutputPath(run: string, call: string, attempt: string, file: string): string {
    "tool-output/" + (run + "/" + (call + "/" + (attempt + "/" + file)))
  }

  /** The file an output address stands for, below the session directory. */
  function OutputFilePath(u: ResourceUri): Option<string> {
    if u.Output? then Some(OutputPath(u.run, u.call, u.attempt, FileName(u.file))) else None
  }

  /** `output_uri`: the address of a file that the output store wrote. */
  function OutputUri(path: string, file: OutputFile): Option<ResourceUri> {
    if !StartsWith(path, "tool-output/") then None
    else
      var parts := Segments(path[|"tool-output/"|..]);
      if |parts| < 4 || parts[3] != FileName(file) || parts[0] == "" || parts[1] == "" || parts[2] == "" then None
      else Some(Output(parts[0], parts[1], parts[2], file))
  }

  /** Main result: every path the store writes gives its address back, and the address gives the path back. */
  lemma PathsAndAddresses(run: string, call: string, attempt: string, file: OutputFile)
    requires run != "" && call != "" && attempt != "" && '/' !in run && '/' !in call && '/' !in attempt
    ensures OutputUri(OutputPath(run, call, attempt, FileName(file)), file) == Some(Output(run, call, attempt, file))
    ensures OutputFilePath(Output(run, call, attempt, file)) == Some(OutputPath(run, call, attempt, FileName(file)))
  {
    hide Join, Segments;
    var parts := [run, call, attempt, FileName(file)];
    FourParts(run, call, attempt, FileName(file));
    SegmentsJoin(parts);
    var path := OutputPath(run, call, attempt, FileName(file));
    Below(path, Join(parts));
  }

  lemma Below(path: string, rest: string)
    requires path == "tool-output/" + rest
    ensures StartsWith(path, "tool-output/") && path[|"tool-output/"|..] == rest
  {
  }

  lemma {:induction false} JoinSplit(parts: seq<string>)
    requires |parts| >= 4
    ensures Join(parts) == parts[0] + "/" + (parts[1] + "/" + (parts[2] + "/" + Join(parts[3..])))
    ensures Join(parts[3..]) == parts[3] || (|parts| > 4 && Join(parts[3..]) == parts[3] + "/" + Join(parts[4..]))
  {
    assert parts[1..][1..] == parts[2..] && parts[2..][1..] == parts[3..] && parts[3..][1..] == parts[4..];
    assert Join(parts) == parts[0] + "/" + Join(parts[1..]);
    assert Join(parts[1..]) == parts[1] + "/" + Join(parts[2..]);
    assert Join(parts[2..]) == parts[2] + "/" + Join(parts[3..]);
  }

  /** No address is made up: a path that yields one starts with the very path the address stands for. */
  lemma AddressesAreNotInvented(path: string, file: OutputFile)
    requires OutputUri(path, file).Some?
    ensures OutputUri(path, file).value.Output? && OutputUri(path, file).value.file == file
    ensures var here := OutputFilePath(OutputUri(path, file).value).value;
            path == here || StartsWith(path, here + "/")
    ensures var u := OutputUri(path, file).value; u.run != "" && u.call != "" && u.attempt != ""
  {
    hide Join, Segments;
    var rest := path[|"tool-output/"|..];
    var parts := Segments(rest);
    JoinSegments(rest);
    JoinSplit(parts);
    assert path == "tool-output/" + Join(parts);
    if Join(parts[3..]) != parts[3] {
      var here := OutputPath(parts[0], parts[1], parts[2], parts[3]);
      assert path == here + "/" + Join(parts[4..]);
    }
  }

  // ------------------------------------------------------------ everything that is read

  /** Main result: whatever is accepted prints as an address that is accepted as the same resource. */
  lemma AcceptedPrintsBack(raw: string)
    requires Parse(raw).Ok?
    ensures Parse(Print(Parse(raw).value)) == Parse(raw)
    ensures !Parse(raw).value.Output? ==> Print(Parse(raw).value) == Trim(raw)
  {
    hide SplitScheme, Safe, IsSpace, Trim, Segments;
    var s := Trim(raw);
    var (scheme, rest) := SplitScheme(s).value;
    CutIsScheme(s);
    var parts := SplitSegments(rest).value;
    var u := Parse(raw).value;
    if u.Output? {
      IdsReadBack(parts[0]);
      IdsReadBack(parts[1]);
      IdsReadBack(parts[2]);
      PartsArePlain(rest, parts);
      OutputReadsBack(u.run, u.call, u.attempt, u.file);
    } else {
      PrintsBack(scheme, rest, parts);
      TrimTwice(raw);
    }
  }

  lemma IdsReadBack(id: string)
    requires ParseId(id).Some?
    ensures Readable(ParseId(id).value) && Plain(ParseId(id).value)
  {
    hide Canonical, ParseUuid, Digits, Plain;
    if ParseUuid(id).Some? {
      UuidComesBack(id);
    } else {
      ShortOfUuid(id);
    }
    ReadableIsPlain(ParseId(id).value);
  }

  lemma ShortOfUuid(id: string)
    requires ParseUuid(id).None? && Digits(id)
    ensures |id| != 32
  {
    assert |id| == 32 ==> forall c :: c in id ==> Hex(c);
  }

  lemma PartsArePlain(rest: string, parts: seq<string>)
    requires SplitSegments(rest) == Some(parts)
    ensures forall p :: p in parts ==> Plain(p)
  {
    SegmentsAreFree(rest);
  }

  lemma PrintsBack(scheme: string, rest: string, parts: seq<string>)
    requires SplitSegments(rest) == Some(parts) && ParseParts(scheme, parts).Ok?
    requires !ParseParts(scheme, parts).value.Output?
    ensures Print(ParseParts(scheme, parts).value) == scheme + "://" + rest
  {
    hide Segments, Safe, ParseId, ParseFile, Join;
    RestIsJoined(rest, parts);
  }

  lemma RestIsJoined(rest: string, parts: seq<string>)
    requires SplitSegments(rest) == Some(parts)
    ensures |parts| == 0 <==> rest == ""
    ensures |parts| == 1 ==> rest == parts[0]
    ensures |parts| == 2 ==> rest == parts[0] + "/" + parts[1]
    ensures |parts| >= 2 ==> rest == parts[0] + "/" + Join(parts[1..])
  {
    hide Safe;
    if rest != "" {
      JoinSegments(rest);
      if |parts| == 2 {
        assert parts[1..] == [parts[1]];
      }
    }
  }

  lemma TrimTwice(s: string)
    ensures Trim(Trim(s)) == Trim(s)
  {
    TrimStartClean(s);
    TrimEndClean(TrimStart(s));
  }

  lemma {:induction false} TrimStartClean(s: string)
    ensures TrimStart(s) != "" ==> !IsSpace(TrimStart(s)[0])
  {
    if s != "" && IsSpace(s[0]) {
      TrimStartClean(s[1..]);
    }
  }

  lemma {:induction false} TrimEndClean(s: string)
    ensures TrimEnd(s) != "" ==> !IsSpace(TrimEnd(s)[|TrimEnd(s)| - 1])
    ensures |TrimEnd(s)| <= |s| && TrimEnd(s) == s[..|TrimEnd(s)|]
  {
    if s != "" && IsSpace(s[|s| - 1]) {
      TrimEndClean(s[..|s| - 1]);
    }
  }

  // ------------------------------------------------------------ what is accepted, and what is refused

  /** The names of an output's files. */
  lemma FilesOfAnOutput()
    ensures OutputFilePath(Output("r", "c", "a", Stdout)) == Some("tool-output/r/c/a/stdout.txt")
    ensures OutputFilePath(Output("r", "c", "a", Stderr)) == Some("tool-output/r/c/a/stderr.txt")
    ensures OutputFilePath(Output("r", "c", "a", Background)) == Some("tool-output/r/c/a/background.log")
    ensures OutputFilePath(Output("r", "c", "a", Result)) == Some("tool-output/r/c/a/output.json")
  {
    assert "tool-output/" + ("r" + "/" + ("c" + "/" + ("a" + "/" + "stdout.txt"))) == "tool-output/r/c/a/stdout.txt";
    assert "tool-output/" + ("r" + "/" + ("c" + "/" + ("a" + "/" + "stderr.txt"))) == "tool-output/r/c/a/stderr.txt";
    assert "tool-output/" + ("r" + "/" + ("c" + "/" + ("a" + "/" + "background.log"))) == "tool-output/r/c/a/background.log";
    assert "tool-output/" + ("r" + "/" + ("c" + "/" + ("a" + "/" + "output.json"))) == "tool-output/r/c/a/output.json";
  }

  /** A part of a path that leads elsewhere, or nowhere. */
  predicate Leads(part: string) { part == "" || part == "." || part == ".." }

  /** Main result: nothing that is accepted leads out of its place, and what does is refused for that. */
  lemma NothingEscapes(raw: string)
    ensures Parse(raw).Ok? ==>
              && SplitScheme(Trim(raw)).Some?
              && (SplitScheme(Trim(raw)).value.1 != "" ==> forall p :: p in Segments(SplitScheme(Trim(raw)).value.1) ==> !Leads(p))
    ensures match SplitScheme(Trim(raw))
            case None => Parse(raw) == Err(NotAResource)
            case Some((scheme, rest)) =>
              if scheme == "" || exists c :: c in scheme && IsSpace(c) then Parse(raw) == Err(NotAResource)
              else rest != "" && (exists p :: p in Segments(rest) && Leads(p)) ==> Parse(raw) == Err(Traversal)
  {
    hide SplitScheme, Trim, Segments, IsSpace;
  }

  /** Of addresses whose parts are in order: which are refused, and why. */
  lemma RefusedExactly(scheme: string, parts: seq<string>)
    ensures scheme != "skill" && scheme != "tool" && scheme != "artifact" ==> ParseParts(scheme, parts) == Err(NotAResource)
    ensures scheme == "skill" ==> (ParseParts(scheme, parts).Err? <==> |parts| == 1)
                                  && (|parts| == 1 ==> ParseParts(scheme, parts) == Err(Missing))
    ensures scheme == "tool" ==> (ParseParts(scheme, parts).Ok? <==> parts == [] || (|parts| == 2 && (parts[1] == "schema" || parts[1] == "doc")))
                                 && (ParseParts(scheme, parts).Err? ==> ParseParts(scheme, parts) == Err(UnknownPart))
    ensures scheme == "artifact" && parts == [] ==> ParseParts(scheme, parts) == Err(Missing)
    ensures scheme == "artifact" && parts != [] && parts[0] != "files" && |parts| != 4 ==> ParseParts(scheme, parts) == Err(UnknownPart)
    ensures scheme == "artifact" && parts != [] && parts[0] == "files" ==> ParseParts(scheme, parts).Ok?
    ensures scheme == "artifact" && |parts| == 4 && parts[0] != "files" ==>
              var known := ParseId(parts[0]).Some? && ParseId(parts[1]).Some? && ParseId(parts[2]).Some?;
              && (!known ==> ParseParts(scheme, parts) == Err(BadId))
              && (known && ParseFile(parts[3]).None? ==> ParseParts(scheme, parts) == Err(UnknownPart))
              && (known && ParseFile(parts[3]).Some? ==> ParseParts(scheme, parts).Ok?)
  {
    hide ParseId, Join;
  }

  /** A path below a place, as it can be written in an address. */
  predicate CleanPath(path: string) {
    path != "" && !IsSpace(path[|path| - 1]) && forall p :: p in Segments(path) ==> Safe(p)
  }

  predicate WellFormed(u: ResourceUri) {
    match u
    case Skill(name, path) => Plain(name) && CleanPath(path)
    case Tool(name, _) => Plain(name)
    case ArtifactFile(path) => CleanPath(path)
    case Output(run, call, attempt, _) => Readable(run) && Readable(call) && Readable(attempt)
    case _ => true
  }

  lemma SomeAreWellFormed()
    ensures WellFormed(ArtifactFile("a")) && WellFormed(Skill("s", "a")) && WellFormed(Tool("t", Doc)) && WellFormed(Output("1", "2", "3", Stdout))
  {
    assert Segments("a") == ["a"];
  }

  lemma ParsesAs(scheme: string, rest: string)
    requires scheme == "skill" || scheme == "tool" || scheme == "artifact"
    requires rest != "" ==> !IsSpace(rest[|rest| - 1])
    ensures Parse(scheme + "://" + rest) ==
            match SplitSegments(rest)
            case None => Err(Traversal)
            case Some(parts) => ParseParts(scheme, parts)
  {
    hide SplitScheme, SplitSegments, ParseParts;
    var s := scheme + "://" + rest;
    assert s[0] == scheme[0] && !IsSpace(scheme[0]);
    assert s[|s| - 1] == if rest == "" then '/' else rest[|rest| - 1];
    TrimLeaves(s);
    SchemeIsCut(scheme, rest);
    WordHasNoSpace(scheme);
  }

  lemma WordHasNoSpace(scheme: string)
    requires scheme == "skill" || scheme == "tool" || scheme == "artifact"
    ensures forall c :: c in scheme ==> !IsSpace(c)
  {
  }

  lemma TwoSegments(a: string, rest: string)
    requires Plain(a) && (forall p :: p in Segments(rest) ==> Safe(p))
    ensures SplitSegments(a + "/" + rest) == Some([a] + Segments(rest)) && Join(([a] + Segments(rest))[1..]) == rest
    ensures (a + "/" + rest)[|a + "/" + rest| - 1] == if rest == "" then '/' else rest[|rest| - 1]
  {
    hide Segments, Join;
    FirstSegment(a, rest);
    JoinSegments(rest);
    assert ([a] + Segments(rest))[1..] == Segments(rest);
  }

  /** Main result: every resource whose parts are in order can be addressed, and is read back as itself. */
  lemma PrintedReadsBack(u: ResourceUri)
    requires WellFormed(u)
    ensures Parse(Print(u)) == Ok(u)
  {
    match u {
      case Skill(name, path) =>
        hide Segments, Join, Parse;
        TwoSegments(name, path);
        ParsesAs("skill", name + "/" + path);
      case SkillRoot => ParsesAs("skill", "");
      case Tool(name, part) => ToolReadsBack(name, part);
      case ToolRoot => ParsesAs("tool", "");
      case ArtifactFile(path) =>
        hide Segments, Join, Parse;
        assert Plain(ARTIFACT_FILES);
        TwoSegments(ARTIFACT_FILES, path);
        ParsesAs("artifact", ARTIFACT_FILES + "/" + path);
      case ArtifactRoot =>
        assert Segments(ARTIFACT_FILES) == [ARTIFACT_FILES];
        ParsesAs("artifact", ARTIFACT_FILES);
      case Output(run, call, attempt, file) =>
        ReadableIsPlain(run);
        ReadableIsPlain(call);
        ReadableIsPlain(attempt);
        OutputReadsBack(run, call, attempt, file);
    }
  }

  lemma ToolReadsBack(name: string, part: ToolPart)
    requires Plain(name)
    ensures Parse(Print(Tool(name, part))) == Ok(Tool(name, part))
  {
    hide Parse, Join;
    var word := PartWord(part);
    assert Segments(word) == [word] && Safe(word) && !IsSpace(word[|word| - 1]) && ParsePart(word) == Some(part);
    TwoSegments(name, word);
    ParsesAs("tool", name + "/" + word);
  }

  /** The accepted forms of a UUID are these and no others. */
  lemma UuidForms(u: string)
    requires Canonical(u)
    ensures ParseUuid(u) == Some(u) && ParseUuid("{" + u + "}") == Some(u) && ParseUuid("urn:uuid:" + u) == Some(u)
    ensures ParseUuid(u[..8] + u[9..13] + u[14..18] + u[19..23] + u[24..]) == Some(u)
  {
    hide Hyphenate, Lower, Canonical;
    CanonicalMeans(u);
    LowerIsCanonical(u);
    var braced, urn := "{" + u + "}", "urn:uuid:" + u;
    assert |braced| == 38 && braced[0] == '{' && braced[37] == '}' && braced[1..37] == u;
    assert |urn| == 45 && urn[..9] == "urn:uuid:" && urn[9..] == u;
    UuidBare(u);
  }

  lemma CanonicalMeans(u: string)
    requires Canonical(u)
    ensures Hyphenated(u)
  {
  }

  lemma UuidBare(u: string)
    requires Canonical(u)
    ensures ParseUuid(u[..8] + u[9..13] + u[14..18] + u[19..23] + u[24..]) == Some(u)
  {
    var bare := u[..8] + u[9..13] + u[14..18] + u[19..23] + u[24..];
    assert |bare| == 32;
    forall c | c in bare ensures Hex(c) {
      var i :| 0 <= i < 32 && bare[i] == c;
      var k := if i < 8 then i else if i < 12 then i + 1 else if i < 16 then i + 2 else if i < 20 then i + 3 else i + 4;
      assert bare[i] == u[k] && !Dash(k);
    }
    assert bare[..8] == u[..8] && bare[8..12] == u[9..13] && bare[12..16] == u[14..18] && bare[16..20] == u[19..23] && bare[20..] == u[24..];
    assert u == u[..8] + [u[8]] + u[9..13] + [u[13]] + u[14..18] + [u[18]] + u[19..23] + [u[23]] + u[24..];
    assert Hyphenate(bare) == u;
    LowerIsCanonical(u);
  }

  lemma UuidNoOther(s: string)
    requires ParseUuid(s).Some?
    ensures |s| == 32 || |s| == 36 || |s| == 38 || |s| == 45
    ensures |s| == 32 ==> forall c :: c in s ==> Hex(c)
    ensures |s| == 36 ==> Hyphenated(s)
    ensures |s| == 38 ==> s[0] == '{' && s[37] == '}' && Hyphenated(s[1..37])
    ensures |s| == 45 ==> s[..9] == "urn:uuid:" && Hyphenated(s[9..])
  {
    hide Hyphenate, Lower;
  }

  lemma HexDigits(c: char)
    ensures Hex(c) <==> c in "0123456789abcdefABCDEF"
  {
    var all := "0123456789abcdefABCDEF";
    if IsDigit(c) {
      assert all[c as int - '0' as int] == c;
    } else if 'a' <= c <= 'f' {
      assert all[10 + (c as int - 'a' as int)] == c;
    } else if 'A' <= c <= 'F' {
      assert all[16 + (c as int - 'A' as int)] == c;
    }
  }
}
