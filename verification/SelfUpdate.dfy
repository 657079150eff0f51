/** `komo update` (crates/komo/src/update.rs): download, check, unpack, try out, and only then rename into
    place: the channel plugins first, the web shell next, the program itself last.

    The disk may stop anywhere, so what holds after `Update` for every plan holds at every moment of it. */
module SelfUpdate {
  import opened Files
  import opened Installation
  import opened Text
  import opened Unpacking

  // ------------------------------------------------------------ versions

  /** Version numbers compare part by part. */
  datatype Version = Version(major: nat, minor: nat, patch: nat) {
    predicate Below(v: Version) {
      major < v.major || (major == v.major && (minor < v.minor || (minor == v.minor && patch < v.patch)))
    }
  }

  /** The first part that differs is the smaller one. */
  ghost predicate FirstLess(a: seq<nat>, b: seq<nat>) {
    |a| == |b| && exists i :: 0 <= i < |a| && a[i] < b[i] && forall j :: 0 <= j < i ==> a[j] == b[j]
  }

  function Numbers(v: Version): seq<nat> { [v.major, v.minor, v.patch] }

  lemma BelowIsFirstLess(v: Version, w: Version)
    ensures v.Below(w) <==> FirstLess(Numbers(v), Numbers(w))
  {
    var a, b := Numbers(v), Numbers(w);
    if v.major < w.major {
      assert a[0] < b[0];
    } else if v.major == w.major && v.minor < w.minor {
      assert a[1] < b[1];
    } else if v.major == w.major && v.minor == w.minor && v.patch < w.patch {
      assert a[2] < b[2];
    } else {
      assert a[0] >= b[0] && (a[0] == b[0] ==> a[1] >= b[1]) && (a[0] == b[0] && a[1] == b[1] ==> a[2] >= b[2]);
    }
  }

  /** Main result: it is the order of releases. Exactly one of two versions is below the other, or they are the
      same; what is below is below whatever that is below; and a patch, a minor and a major step go up,
      whatever the parts behind them. */
  lemma VersionsAreOrdered(u: Version, v: Version, w: Version)
    ensures !v.Below(v)
    ensures v.Below(w) || w.Below(v) || v == w
    ensures !(v.Below(w) && w.Below(v))
    ensures u.Below(v) && v.Below(w) ==> u.Below(w)
    ensures v.Below(Version(v.major, v.minor, v.patch + 1))
    ensures v.Below(Version(v.major, v.minor + 1, w.patch))
    ensures v.Below(Version(v.major + 1, w.minor, w.patch))
  {
  }

  /** As one number, in any base above all minor and patch parts. */
  lemma VersionsAsNumbers(v: Version, w: Version, base: nat)
    requires v.minor < base && v.patch < base && w.minor < base && w.patch < base
    ensures v.Below(w) <==> (v.major * base + v.minor) * base + v.patch < (w.major * base + w.minor) * base + w.patch
  {
    DigitsCompare(v.major, v.minor, w.major, w.minor, base);
    DigitsCompare(v.major * base + v.minor, v.patch, w.major * base + w.minor, w.patch, base);
  }

  lemma DigitsCompare(a: nat, x: nat, b: nat, y: nat, base: nat)
    requires x < base && y < base
    ensures a * base + x < b * base + y <==> a < b || (a == b && x < y)
    ensures a * base + x == b * base + y <==> a == b && x == y
  {
    if a < b {
      assert (a + 1) * base <= b * base;
    } else if a > b {
      assert (b + 1) * base <= a * base;
    }
  }

  function Stripped(tag: string): string { if StartsWith(tag, "v") then tag[1..] else tag }

  function VersionOf(tag: string): Option<Version> {
    var parts := Split(Stripped(Trim(tag)), '.');
    if |parts| != 3 then None
    else match (ParseU64(parts[0]), ParseU64(parts[1]), ParseU64(parts[2]))
      case (Some(a), Some(b), Some(c)) => Some(Version(a, b, c))
      case _ => None
  }

  function PrintVersion(v: Version): string {
    Decimal(v.major) + "." + (Decimal(v.minor) + "." + Decimal(v.patch))
  }

  lemma DecimalIsPlain(n: nat)
    requires n < U64_LIMIT
    ensures '.' !in Decimal(n) && ParseU64(Decimal(n)) == Some(n)
    ensures Decimal(n) != "" && IsDigit(Decimal(n)[0]) && IsDigit(Decimal(n)[|Decimal(n)| - 1])
  {
    var s := Decimal(n);
    DecimalValue(n);
    assert s[0] in s && s[|s| - 1] in s;
    assert s[..1] == [s[0]];
  }

  lemma ThreePieces(a: string, b: string, c: string)
    requires '.' !in a && '.' !in b && '.' !in c
    ensures Split(a + "." + (b + "." + c), '.') == [a, b, c]
  {
    hide Split;
    SplitFirst(b, c, '.');
    SplitFirst(a, b + "." + c, '.');
    OnePiece(c, '.');
    assert [a] + ([b] + [c]) == [a, b, c];
  }

  lemma OnePiece(s: string, c: char)
    requires c !in s
    ensures Split(s, c) == [s]
  {
  }

  lemma TrimTight(s: string)
    requires Tight(s)
    ensures Trim(s) == s
  {
  }

  lemma DigitIsNoSpace(c: char)
    requires IsDigit(c)
    ensures !IsSpace(c) && c != 'v'
  {
  }

  lemma ReadPieces(tag: string, s: string, v: Version)
    requires Stripped(tag) == s && Trim(tag) == tag
    requires |Split(s, '.')| == 3
    requires ParseU64(Split(s, '.')[0]) == Some(v.major) && ParseU64(Split(s, '.')[1]) == Some(v.minor)
    requires ParseU64(Split(s, '.')[2]) == Some(v.patch)
    ensures VersionOf(tag) == Some(v)
  {
    hide ParseU64, Split, Trim, Stripped;
  }

  /** A released tag, with or without its `v`, is read as the version it prints. */
  lemma TagsAreRead(v: Version)
    requires v.major < U64_LIMIT && v.minor < U64_LIMIT && v.patch < U64_LIMIT
    ensures VersionOf("v" + PrintVersion(v)) == Some(v) && VersionOf(PrintVersion(v)) == Some(v)
  {
    hide ParseU64, Decimal, Split, Trim, IsSpace, IsDigit, VersionOf;
    var a, b, c := Decimal(v.major), Decimal(v.minor), Decimal(v.patch);
    DecimalIsPlain(v.major);
    DecimalIsPlain(v.minor);
    DecimalIsPlain(v.patch);
    var s := PrintVersion(v);
    ThreePieces(a, b, c);
    assert s == a + "." + (b + "." + c);
    assert s[0] == a[0] && s[|s| - 1] == c[|c| - 1];
    DigitIsNoSpace(s[0]);
    DigitIsNoSpace(s[|s| - 1]);
    LetterIsNoSpace();
    TrimTight(s);
    TrimTight("v" + s);
    assert ("v" + s)[1..] == s && ("v" + s)[..1] == "v";
    assert s[..1] == [s[0]];
    ReadPieces(s, s, v);
    ReadPieces("v" + s, s, v);
  }

  lemma LetterIsNoSpace()
    ensures !IsSpace('v')
  {
  }

  // ------------------------------------------------------------ the checksum list

  function Words(s: string): seq<string>
    decreases |s|
  {
    var t := TrimStart(s);
    TrimShrinks(s);
    if t == "" then [] else
    var n := WordEnd(t);
    [t[..n]] + Words(t[n..])
  }

  lemma {:induction false} TrimShrinks(s: string)
    ensures |TrimStart(s)| <= |s| && (TrimStart(s) != "" ==> !IsSpace(TrimStart(s)[0]))
  {
    if s != "" && IsSpace(s[0]) {
      TrimShrinks(s[1..]);
    }
  }

  function WordEnd(t: string): (n: nat)
    requires t != "" && !IsSpace(t[0])
    ensures 0 < n <= |t| && (forall i :: 0 <= i < n ==> !IsSpace(t[i])) && (n < |t| ==> IsSpace(t[n]))
  {
    if |t| == 1 || IsSpace(t[1]) then 1 else 1 + WordEnd(t[1..])
  }

  function SumIn(lines: seq<string>, asset: string): Option<string> {
    if lines == [] then None
    else
      var fields := Words(lines[0]);
      if |fields| >= 2 && fields[1] == asset then Some(Lower(fields[0])) else SumIn(lines[1..], asset)
  }

  function SumFor(sums: string, asset: string): Option<string> {
    SumIn(Split(sums, '\n'), asset)
  }

  predicate Word(s: string) { s != "" && forall c :: c in s ==> !IsSpace(c) }

  lemma {:induction false} WholeWord(w: string, rest: string)
    requires Word(w) && (rest != "" ==> IsSpace(rest[0]))
    ensures w + rest != "" && !IsSpace((w + rest)[0]) && WordEnd(w + rest) == |w|
  {
    var t := w + rest;
    assert t[0] == w[0] && w[0] in w;
    if |w| > 1 {
      assert w[1] in w;
      assert Word(w[1..]);
      assert t[1..] == w[1..] + rest;
      WholeWord(w[1..], rest);
    }
  }

  /** A line as `sha256sum` writes it is read as its digest and its name. */
  lemma SumLine(digest: string, name: string)
    requires Word(digest) && Word(name)
    ensures Words(digest + "  " + name) == [digest, name]
  {
    var line := digest + "  " + name;
    assert line == digest + ("  " + name);
    assert ("  " + name)[0] == ' ';
    WholeWord(digest, "  " + name);
    assert TrimStart(line) == line;
    assert line[..|digest|] == digest && line[|digest|..] == "  " + name;
    assert ("  " + name)[1..] == " " + name && (" " + name)[1..] == name;
    assert name[0] in name;
    assert TrimStart("  " + name) == TrimStart(" " + name) == TrimStart(name) == name;
    assert name + "" == name;
    WholeWord(name, "");
    assert name[..|name|] == name && name[|name|..] == "";
    assert Words("  " + name) == [name] + Words("");
  }

  datatype Sum = Sum(digest: string, name: string)

  function PrintSums(sums: seq<Sum>): string {
    if sums == [] then "" else sums[0].digest + "  " + sums[0].name + "\n" + PrintSums(sums[1..])
  }

  function FirstNamed(sums: seq<Sum>, asset: string): Option<string> {
    if sums == [] then None
    else if sums[0].name == asset then Some(Lower(sums[0].digest))
    else FirstNamed(sums[1..], asset)
  }

  /** The list that `sha256sum` writes gives each file its own digest, in lower case. */
  lemma {:induction false} SumsAreRead(sums: seq<Sum>, asset: string)
    requires forall x :: x in sums ==> Word(x.digest) && Word(x.name)
    ensures SumFor(PrintSums(sums), asset) == FirstNamed(sums, asset)
  {
    hide Lower, Word;
    if sums == [] {
      assert Words("") == [] && [""][1..] == [];
      assert SumIn([""], asset) == SumIn([], asset);
      assert Split("", '\n') == [""];
    } else {
      var line := sums[0].digest + "  " + sums[0].name;
      var rest := PrintSums(sums[1..]);
      SumLine(sums[0].digest, sums[0].name);
      NoNewline(sums[0].digest, sums[0].name);
      SplitFirst(line, rest, '\n');
      assert PrintSums(sums) == line + ['\n'] + rest;
      assert Split(PrintSums(sums), '\n')[1..] == Split(rest, '\n');
      SumsAreRead(sums[1..], asset);
    }
  }

  lemma NoNewline(digest: string, name: string)
    requires Word(digest) && Word(name)
    ensures '\n' !in digest + "  " + name
  {
    assert IsSpace('\n');
  }

  // ------------------------------------------------------------ what is installed

  /** Hashing, unpacking, and running a program with `--version` (None: it does not run). */
  datatype Machine = Machine(hash: Image -> string, unpack: Image -> Option<seq<Member>>, reports: Image -> Option<string>)

  /** What the release server delivered; None where it failed. */
  datatype Release = Release(tag: string, archive: Option<Image>, sums: Option<string>, asset: string)

  predicate IsProgram(x: Member, name: string) { x.Web().None? && x.name == name }

  /** Among the first `n` members there is exactly one of that name, a plain file with this content. */
  predicate SoleIn(members: seq<Member>, n: nat, name: string, content: Image)
    requires n <= |members|
  {
    exists i :: 0 <= i < n && IsProgram(members[i], name) && members[i].kind.PlainFile? && members[i].content == content
                && forall j :: 0 <= j < n && j != i ==> !IsProgram(members[j], name)
  }

  predicate NoneIn(members: seq<Member>, n: nat, name: string)
    requires n <= |members|
  {
    forall j :: 0 <= j < n ==> !IsProgram(members[j], name)
  }

  /** What stands under the name that the web folder is staged to: at first what an updater with the same
      process number has left there. */
  function WebNow(nodes: Nodes): Option<Node> {
    if StagedWeb in nodes then Some(nodes[StagedWeb]) else None
  }

  /** The image and the plugins come from an archive with the published checksum, each is the only
      member of its name, and each was run and says it is this very release. */
  ghost predicate Vetted(m: Machine, r: Release, image: Image, plugins: Contents) {
    && r.archive.Some? && r.sums.Some?
    && SumFor(r.sums.value, r.asset) == Some(m.hash(r.archive.value))
    && m.unpack(r.archive.value).Some?
    && (var members := m.unpack(r.archive.value).value;
        && SoleIn(members, |members|, BINARY, image)
        && Reports(m, r, image)
        && plugins.Keys == Plugins()
        && forall name :: name in Plugins() ==> SoleIn(members, |members|, name, plugins[name]) && Reports(m, r, plugins[name]))
  }

  predicate Reports(m: Machine, r: Release, image: Image) {
    m.reports(image) == Some(Stripped(Trim(r.tag)))
  }

  // ------------------------------------------------------------ what a program finds

  /** Nothing changed except at these places. */
  ghost predicate Only(before: Nodes, after: Nodes, places: set<Place>) {
    forall p :: p !in places ==> SameAt(before, after, p)
  }

  lemma OnlyThen(a: Nodes, b: Nodes, c: Nodes, s: set<Place>, t: set<Place>, u: set<Place>)
    requires Only(a, b, s) && Only(b, c, t) && s <= u && t <= u
    ensures Only(a, c, u)
  {
    forall p | p !in u
      ensures SameAt(a, c, p)
    {
      assert SameAt(a, b, p) && SameAt(b, c, p);
    }
  }

  lemma OnlySame(a: Nodes, s: set<Place>)
    ensures Only(a, a, s)
  {
  }

  // ------------------------------------------------------------ the updater

  class Updater {
    const disk: Disk<Place, Node>
    const machine: Machine
    const home: Home

    constructor (disk: Disk<Place, Node>, machine: Machine, home: Home)
      ensures this.disk == disk && this.machine == machine && this.home == home
    {
      this.disk, this.machine, this.home := disk, machine, home;
    }

    method WriteFile(p: Place, image: Image) returns (ok: bool)
      modifies disk`nodes, disk`clock
      ensures Only(old(disk.nodes), disk.nodes, {p})
      ensures ok ==> p in disk.nodes && disk.nodes[p] == File(image)
      ensures old(disk.Healthy()) ==> ok && disk.Healthy()
    {
      ok := disk.Put(p, File(image), (k: nat) => File(if k < |image| then image[..k] else image));
      if ok {
        ok := disk.Touch();
      }
    }

    /** One file into a folder. */
    method WriteInto(p: Place, name: string, image: Image) returns (ok: bool)
      requires p in disk.nodes && disk.nodes[p].Folder?
      modifies disk`nodes, disk`clock
      ensures Only(old(disk.nodes), disk.nodes, {p})
      ensures ok ==> p in disk.nodes && disk.nodes[p] == Folder(old(disk.nodes)[p].contents[name := image])
      ensures old(disk.Healthy()) ==> ok && disk.Healthy()
    {
      var contents := disk.nodes[p].contents;
      ok := disk.Put(p, Folder(contents[name := image]),
                     (k: nat) => Folder(contents[name := if k < |image| then image[..k] else image]));
      if ok {
        ok := disk.Touch();
      }
    }

    /** Makes sure of the staged folder and of folders in it, parents first. */
    method MakeFolders(path: Path) returns (ok: bool)
      modifies disk`nodes, disk`clock
      ensures Only(old(disk.nodes), disk.nodes, {StagedWeb})
      ensures ok ==> Passable(WebNow(old(disk.nodes)), path)
                     && WebNow(disk.nodes) == Some(Shell(WithFolders(SiteOf(WebNow(old(disk.nodes))), path)))
      ensures old(disk.Healthy()) ==> disk.Healthy() && (ok <==> Passable(WebNow(old(disk.nodes)), path))
    {
      var web := WebNow(disk.nodes);
      if !Passable(web, path) {
        ok := disk.Touch();
        return false;
      }
      ok := disk.Put(StagedWeb, Shell(WithFolders(SiteOf(web), path)),
                     (k: nat) => Shell(WithFolders(SiteOf(web), if k < |path| then path[..k] else path)));
    }

    /** Writes one file of the staged folder, over one of the same path. */
    method WriteWeb(path: Path, image: Image) returns (ok: bool)
      requires path != [] ==> HasShell(disk.nodes, StagedWeb)
      modifies disk`nodes, disk`clock
      ensures Only(old(disk.nodes), disk.nodes, {StagedWeb})
      ensures ok ==> Writable(WebNow(old(disk.nodes)), path)
                     && WebNow(disk.nodes) == Some(Written(WebNow(old(disk.nodes)), path, image))
      ensures old(disk.Healthy()) ==> disk.Healthy() && (ok <==> Writable(WebNow(old(disk.nodes)), path))
    {
      var web := WebNow(disk.nodes);
      if !Writable(web, path) {
        ok := disk.Touch();
        return false;
      }
      ok := disk.Put(StagedWeb, Written(web, path, image),
                     (k: nat) => Written(web, path, if k < |image| then image[..k] else image));
      if ok {
        ok := disk.Touch();
      }
    }

    /** `extract_web_entry`: a folder, or a file in its place, if its path only goes down and nothing is in the way. */
    method ExtractWeb(x: Member) returns (ok: bool)
      requires x.Web().Some?
      modifies disk`nodes, disk`clock
      ensures Only(old(disk.nodes), disk.nodes, {StagedWeb})
      ensures ok ==> Fits(WebNow(old(disk.nodes)), x) && WebNow(disk.nodes) == Some(Added(WebNow(old(disk.nodes)), x))
      ensures old(disk.Healthy()) ==> disk.Healthy() && (ok <==> Fits(WebNow(old(disk.nodes)), x))
    {
      hide Walkable, WithFolders, Split, Parts, Member.Web;
      OnlySame(disk.nodes, {StagedWeb});
      var path := x.Web().value;
      if ".." in path || x.kind.Special? { return false; }
      if x.kind.FolderMember? {
        ok := MakeFolders(path);
      } else if path == [] {
        ok := WriteWeb(path, x.content);
      } else {
        ok := MakeFolders(path[..|path| - 1]);
        ghost var between := disk.nodes;
        if !ok { return; }
        FolderKept(SiteOf(WebNow(old(disk.nodes))), path);
        ok := WriteWeb(path, x.content);
        OnlyThen(old(disk.nodes), between, disk.nodes, {StagedWeb}, {StagedWeb}, {StagedWeb});
      }
    }

    /** One of the four programs, once. */
    method ExtractProgram(x: Member, found: set<string>) returns (ok: bool)
      requires x.Web().None? && (x.name == BINARY || x.name in Plugins())
      requires StagedPlugins in disk.nodes && disk.nodes[StagedPlugins].Folder?
      modifies disk`nodes, disk`clock
      ensures Only(old(disk.nodes), disk.nodes, {if x.name == BINARY then Staged else StagedPlugins})
      ensures ok ==> x.kind.PlainFile? && x.name !in found
      ensures ok && x.name == BINARY ==> Staged in disk.nodes && disk.nodes[Staged] == File(x.content)
      ensures ok && x.name != BINARY ==>
                && StagedPlugins in disk.nodes
                && disk.nodes[StagedPlugins] == Folder(old(disk.nodes)[StagedPlugins].contents[x.name := x.content])
      ensures old(disk.Healthy()) ==> disk.Healthy() && (ok <==> x.kind.PlainFile? && x.name !in found)
    {
      if !x.kind.PlainFile? || x.name in found { return false; }
      if x.name == BINARY {
        ok := WriteFile(Staged, x.content);
      } else {
        ok := WriteInto(StagedPlugins, x.name, x.content);
      }
    }

    method ExtractOne(members: seq<Member>, n: nat, found: set<string>, ghost left: Option<Node>)
      returns (ok: bool, more: set<string>)
      requires n < |members|
      requires Unpacked(disk.nodes, members, n, found) && WebNow(disk.nodes) == WebAfter(left, members, n)
      modifies disk`nodes, disk`clock
      ensures Only(old(disk.nodes), disk.nodes, {Staged, StagedPlugins, StagedWeb})
      ensures ok ==> Unpacked(disk.nodes, members, n + 1, more) && WebNow(disk.nodes) == WebAfter(left, members, n + 1)
      ensures old(disk.Healthy()) ==> disk.Healthy()
      ensures ok && members[n].Web().Some? ==> Fits(WebAfter(left, members, n), members[n])
      ensures old(disk.Healthy()) && Unpackable(left, members) ==> ok
    {
      hide Only, Unpacked, Plugins, SameAt, Unpackable, Fits, Added, Member.Web;
      UnpackableAt(disk.nodes, left, members, n, found);
      var x := members[n];
      more := found;
      OnlySame(disk.nodes, {Staged, StagedPlugins, StagedWeb});
      UnpackedMeans(disk.nodes, members, n, found);
      if x.Web().Some? {
        ok := ExtractWeb(x);
        OnlyThen(old(disk.nodes), old(disk.nodes), disk.nodes, {StagedWeb}, {StagedWeb}, {Staged, StagedPlugins, StagedWeb})
          by { OnlySame(old(disk.nodes), {StagedWeb}); }
        UnpackedSkip(old(disk.nodes), disk.nodes, members, n, found);
      } else if x.name != BINARY && x.name !in Plugins() {
        ok := true;
        OnlySame(disk.nodes, {StagedWeb});
        UnpackedSkip(disk.nodes, disk.nodes, members, n, found);
      } else {
        ok := ExtractProgram(x, found);
        ghost var place := if x.name == BINARY then Staged else StagedPlugins;
        OnlyThen(old(disk.nodes), old(disk.nodes), disk.nodes, {place}, {place}, {Staged, StagedPlugins, StagedWeb})
          by { OnlySame(old(disk.nodes), {place}); }
        WebStays(old(disk.nodes), disk.nodes, place);
        if ok {
          UnpackedProgram(old(disk.nodes), disk.nodes, members, n, found);
          more := found + {x.name};
        }
      }
    }

    /** `extract`: the four named programs, each exactly once, and the web folder; nothing else. */
    method Extract(members: seq<Member>) returns (ok: bool)
      modifies disk`nodes, disk`clock
      ensures Only(old(disk.nodes), disk.nodes, {Staged, StagedPlugins, StagedWeb})
      ensures ok ==> Unpacked(disk.nodes, members, |members|, Plugins() + {BINARY})
      ensures ok ==> WebNow(disk.nodes) == WebAfter(WebNow(old(disk.nodes)), members, |members|)
      ensures ok ==> StagedPlugins !in old(disk.nodes) && Unpackable(WebNow(old(disk.nodes)), members)
      ensures old(disk.Healthy()) ==> disk.Healthy()
      ensures old(disk.Healthy()) ==>
                (ok <==> StagedPlugins !in old(disk.nodes) && Unpackable(WebNow(old(disk.nodes)), members))
    {
      hide Only, Plugins, Unpacked, SameAt, Unpackable, Fits, Added, Member.Web;
      ghost var left, start := WebNow(disk.nodes), disk.nodes;
      OnlySame(start, {Staged, StagedPlugins, StagedWeb});
      ok := disk.CreateNew(StagedPlugins, Folder(map[]));
      if !ok { return false; }
      NothingUnpacked(start, disk.nodes, members);
      var found := {};
      for i := 0 to |members|
        invariant Only(start, disk.nodes, {Staged, StagedPlugins, StagedWeb})
        invariant Unpacked(disk.nodes, members, i, found) && WebNow(disk.nodes) == WebAfter(left, members, i)
        invariant AllFit(left, members, i)
        invariant old(disk.Healthy()) ==> disk.Healthy()
      {
        ghost var before := disk.nodes;
        ok, found := ExtractOne(members, i, found, left);
        OnlyThen(start, before, disk.nodes, {Staged, StagedPlugins, StagedWeb}, {Staged, StagedPlugins, StagedWeb},
                 {Staged, StagedPlugins, StagedWeb});
        if !ok { return false; }
      }
      ok := found == Plugins() + {BINARY};
      UnpackableAll(disk.nodes, left, members, found);
    }

    // ---------------------------------------------------------- staging

    method Probe(image: Image, r: Release) returns (ok: bool)
      modifies disk`clock
      ensures ok ==> Reports(machine, r, image)
      ensures old(disk.Healthy()) ==> disk.Healthy() && (ok <==> Reports(machine, r, image))
    {
      ok := disk.Touch();
      ok := ok && Reports(machine, r, image);
    }

    /** Every plugin is made executable and tried out. */
    method ProbePlugins(plugins: Contents, r: Release) returns (ok: bool)
      requires Plugins() <= plugins.Keys
      modifies disk`clock
      ensures ok ==> forall name :: name in Plugins() ==> Reports(machine, r, plugins[name])
      ensures old(disk.Healthy()) ==> disk.Healthy() && (ok <==> forall name :: name in Plugins() ==> Reports(machine, r, plugins[name]))
    {
      hide Plugins;
      var todo := Plugins();
      ok := true;
      while todo != {}
        invariant todo <= Plugins()
        invariant forall name :: name in Plugins() && name !in todo ==> Reports(machine, r, plugins[name])
        invariant old(disk.Healthy()) ==> disk.Healthy()
        decreases todo
      {
        var name :| name in todo;
        ok := disk.Touch();
        if !ok { return false; }
        ok := Probe(plugins[name], r);
        if !ok { return false; }
        todo := todo - {name};
      }
    }

    method Download(r: Release) returns (ok: bool)
      modifies disk`nodes, disk`clock
      ensures Only(old(disk.nodes), disk.nodes, {Archive})
      ensures ok ==> r.archive.Some? && Archive in disk.nodes && disk.nodes[Archive] == File(r.archive.value)
      ensures old(disk.Healthy()) ==> disk.Healthy() && (ok <==> r.archive.Some?)
    {
      if r.archive.None? {
        var part := WriteFile(Archive, "");
        return false;
      }
      ok := WriteFile(Archive, r.archive.value);
    }

    /** `stage`: nothing that runs is touched before the checksum fits and all four programs say that
        they are this release. */
    method Stage(r: Release) returns (ok: bool, ghost image: Image, ghost plugins: Contents)
      modifies disk`nodes, disk`clock
      ensures Only(old(disk.nodes), disk.nodes, {Archive, Staged, StagedPlugins, StagedWeb})
      ensures ok ==> IsStaged(disk.nodes, image, plugins) && Vetted(machine, r, image, plugins)
      ensures ok ==> WebNow(disk.nodes) == WebOfRelease(machine, r, WebNow(old(disk.nodes)))
      ensures old(disk.Healthy()) ==> disk.Healthy()
      ensures old(disk.Healthy()) ==>
                (ok <==> StagedPlugins !in old(disk.nodes) && Acceptable(machine, r, WebNow(old(disk.nodes))))
    {
      hide Only, Plugins, Unpacked, SumFor, SameAt, Unpackable, SoleIn, Acceptable;
      ghost var start := disk.nodes;
      image, plugins := "", map[];
      AcceptableMeans(machine, r, WebNow(start));
      ok := Download(r);
      Wider(start, disk.nodes, {Archive});
      if !ok || r.sums.None? { return false, image, plugins; }
      var expected := SumFor(r.sums.value, r.asset);
      if expected.None? || machine.hash(disk.nodes[Archive].image) != expected.value { return false, image, plugins; }
      var members := machine.unpack(disk.nodes[Archive].image);
      if members.None? { return false, image, plugins; }
      ghost var before := disk.nodes;
      LeftStays(start, before);
      ok := Extract(members.value);
      OnlyThen(start, before, disk.nodes, {Archive, Staged, StagedPlugins, StagedWeb}, {Staged, StagedPlugins, StagedWeb},
               {Archive, Staged, StagedPlugins, StagedWeb});
      if !ok { return false, image, plugins; }
      UnpackedAll(disk.nodes, members.value);
      if Acceptable(machine, r, WebNow(start)) {
        AcceptableReports(machine, r, WebNow(start), disk.nodes[Staged].image, disk.nodes[StagedPlugins].contents);
      }
      image, plugins := disk.nodes[Staged].image, disk.nodes[StagedPlugins].contents;
      ok := disk.Touch();
      if !ok { return; }
      ok := Probe(disk.nodes[Staged].image, r);
      if !ok { return; }
      ok := ProbePlugins(disk.nodes[StagedPlugins].contents, r);
      if ok {
        VettedIsAcceptable(machine, r, WebNow(start), image, plugins);
      }
    }

    // ---------------------------------------------------------- into place

    /** `install_plugins`: the staged set becomes a generation, and then, in one step, the set of its version. */
    method InstallPlugins(version: string, generation: string, ghost plugins: Contents) returns (ok: bool)
      requires StagedPlugins in disk.nodes && disk.nodes[StagedPlugins] == Folder(plugins)
      requires PluginSet(generation) !in disk.nodes
      modifies disk`nodes, disk`clock
      ensures Only(old(disk.nodes), disk.nodes, {StagedPlugins, PluginsNew(version), PluginSet(generation), PluginsOf(version)})
      ensures ok ==> PluginsFor(disk.nodes, version) == Some(plugins) && PluginsInPlace(disk.nodes, version, generation, plugins)
      ensures !ok ==> SameAt(old(disk.nodes), disk.nodes, PluginsOf(version))
      ensures old(disk.Healthy()) ==> disk.Healthy()
      ensures old(disk.Healthy()) ==>
                (ok <==> PluginsNew(version) !in old(disk.nodes) && !HasFolder(old(disk.nodes), PluginsOf(version)))
    {
      ok := disk.Touch();
      if !ok { return; }
      ok := disk.Rename(StagedPlugins, PluginSet(generation));
      if !ok { return; }
      ok := disk.CreateNew(PluginsNew(version), Link([generation]));
      if !ok { return; }
      if HasFolder(disk.nodes, PluginsOf(version)) { return false; }
      ok := disk.Rename(PluginsNew(version), PluginsOf(version));
    }

    /** One place's part of a `remove_dir_all`. */
    method RemoveOne(p: Place, gone: Path) returns (ok: bool)
      requires p in disk.nodes
      modifies disk`nodes, disk`clock
      ensures Only(old(disk.nodes), disk.nodes, {p})
      ensures Kept(old(disk.nodes)[p], PathOf(home, p), gone) == Some(old(disk.nodes)[p]) ==> disk.nodes == old(disk.nodes)
      ensures p in disk.nodes && !HasFolder(old(disk.nodes), p) ==> disk.nodes[p] == old(disk.nodes)[p]
      ensures ok ==> IsKept(old(disk.nodes)[p], disk.nodes, p, gone)
      ensures old(disk.Healthy()) ==> ok && disk.Healthy()
    {
      hide Kept, PathOf;
      var n := disk.nodes[p];
      ok := true;
      match Kept(n, PathOf(home, p), gone) {
        case None =>
          ok := disk.Put(p, Emptied(n), k => Emptied(n));
          if ok {
            ok := disk.Remove(p);
          }
        case Some(left) =>
          KeptWhole(n, PathOf(home, p), gone);
          if left != n {
            ok := disk.Put(p, left, k => left);
          }
      }
    }

    /** This place is as a complete `remove_dir_all` leaves it. */
    predicate IsKept(n: Node, nodes: Nodes, p: Place, gone: Path) {
      Kept(n, PathOf(home, p), gone) == if p in nodes then Some(nodes[p]) else None
    }

    /** `remove_dir_all`, one place after the other in no special order. Failure is ignored. */
    method RemovePrevious(gone: Path)
      modifies disk`nodes, disk`clock
      ensures forall p :: p in old(disk.nodes) && Kept(old(disk.nodes)[p], PathOf(home, p), gone) == Some(old(disk.nodes)[p]) ==>
                p in disk.nodes && disk.nodes[p] == old(disk.nodes)[p]
      ensures OnlyLost(old(disk.nodes), disk.nodes)
      ensures old(disk.Healthy()) ==> disk.Healthy() && disk.nodes == Removed(home, old(disk.nodes), gone)
    {
      hide Kept, PathOf, IsKept, Removed;
      ghost var was := disk.nodes;
      var todo := disk.nodes.Keys;
      while todo != {}
        invariant todo <= was.Keys && OnlyLost(was, disk.nodes)
        invariant forall p :: p in todo ==> SameAt(was, disk.nodes, p)
        invariant forall p :: p in was && Kept(was[p], PathOf(home, p), gone) == Some(was[p]) ==> SameAt(was, disk.nodes, p)
        invariant forall p :: p in was && p !in todo ==> IsKept(was[p], disk.nodes, p, gone)
        invariant old(disk.Healthy()) ==> disk.Healthy()
        decreases todo
      {
        var p :| p in todo;
        todo := todo - {p};
        ghost var before := disk.nodes;
        assert SameAt(was, before, p);
        var ok := RemoveOne(p, gone);
        LostMore(was, before, disk.nodes, p);
        forall q | q in was && Kept(was[q], PathOf(home, q), gone) == Some(was[q])
          ensures SameAt(was, disk.nodes, q)
        {
          assert SameAt(was, before, q);
          assert q != p ==> SameAt(before, disk.nodes, q);
        }
        forall q | q in was && q !in todo
          ensures ok ==> IsKept(was[q], disk.nodes, q, gone)
        {
          if q != p {
            assert SameAt(before, disk.nodes, q);
            KeptOn(was[q], before, disk.nodes, q, gone);
          }
        }
        if !ok { return; }
      }
      AllKept(was, disk.nodes, gone);
    }

    lemma KeptOn(n: Node, before: Nodes, after: Nodes, p: Place, gone: Path)
      requires SameAt(before, after, p) && IsKept(n, before, p, gone)
      ensures IsKept(n, after, p, gone)
    {
    }

    lemma AllKept(was: Nodes, now: Nodes, gone: Path)
      requires now.Keys <= was.Keys && forall p :: p in was ==> IsKept(was[p], now, p, gone)
      ensures now == Removed(home, was, gone)
    {
      hide Kept, PathOf;
      assert forall p :: p in was ==> (p in now <==> Kept(was[p], PathOf(home, p), gone).Some?);
      assert now.Keys == Removed(home, was, gone).Keys;
    }

    /** `install_web`: the staged folder becomes a generation, and then, in one step, the live one; then what
        the link led to before is cleared away, if the link's text starts as the updater's own do. */
    method InstallWeb(generation: string) returns (ok: bool)
      requires WebSet(generation) !in disk.nodes && Name(generation)
      modifies disk`nodes, disk`clock
      ensures Shelling(home, old(disk.nodes), disk.nodes, generation)
      ensures !HasShell(old(disk.nodes), StagedWeb) ==> ok && disk.nodes == old(disk.nodes)
      ensures HasShell(old(disk.nodes), StagedWeb) && ShellSpared(home, old(disk.nodes), generation, old(disk.nodes)[StagedWeb].site) ==>
                || SameAt(old(disk.nodes), disk.nodes, WebLive)
                || WebFor(home, disk.nodes) == Some(old(disk.nodes)[StagedWeb].site)
      ensures HasShell(old(disk.nodes), StagedWeb) && ShellSpared(home, old(disk.nodes), generation, old(disk.nodes)[StagedWeb].site)
              && WebFor(home, old(disk.nodes)).Some? ==>
                || WebFor(home, disk.nodes) == WebFor(home, old(disk.nodes))
                || WebFor(home, disk.nodes) == Some(old(disk.nodes)[StagedWeb].site)
      ensures old(disk.Healthy()) ==> disk.Healthy()
      ensures old(disk.Healthy()) && HasShell(old(disk.nodes), StagedWeb) ==>
                && (ok <==> WebNew !in old(disk.nodes) && !HasFolder(old(disk.nodes), WebLive))
                && (ok ==> disk.nodes == Shelled(home, old(disk.nodes), generation))
    {
      hide Kept, PathOf, Resolve, Generation;
      ghost var start := disk.nodes;
      if !HasShell(disk.nodes, StagedWeb) { return true; }
      ok := disk.Touch();
      if !ok || HasFolder(disk.nodes, WebLive) { return false; }
      var gone := Doomed(home, disk.nodes);
      ok := disk.Rename(StagedWeb, WebSet(generation));
      SameShell(home, start, disk.nodes, generation);
      if !ok { return; }
      ok := disk.CreateNew(WebNew, Link([WEB_ROOT, generation]));
      SameShell(home, start, disk.nodes, generation);
      if !ok { return; }
      ok := disk.Rename(WebNew, WebLive);
      if !ok { return; }
      assert disk.nodes == Linked(start, generation);
      OwnLink(home, generation);
      if gone.Some? {
        RemovePrevious(gone.value);
        ShellCleared(home, start, disk.nodes, generation);
      }
    }

    /** Clears away what a failed update has staged. Failure is ignored. */
    method ClearStaged()
      modifies disk`nodes, disk`clock
      ensures Only(old(disk.nodes), disk.nodes, {Staged, StagedPlugins, StagedWeb})
      ensures old(disk.Healthy()) ==> disk.Healthy() && disk.nodes == old(disk.nodes) - {Staged, StagedPlugins, StagedWeb}
    {
      var ok := disk.Remove(StagedPlugins);
      ok := disk.Remove(StagedWeb);
      ok := disk.Remove(Staged);
    }

    /** `install`: everything is staged and tried out, then put in place; the program last. */
    method Install(r: Release, generation: string) returns (ok: bool, ghost image: Image, ghost plugins: Contents)
      requires PluginSet(generation) !in disk.nodes && WebSet(generation) !in disk.nodes && Name(generation)
      modifies disk`nodes, disk`clock
      ensures ok ==> Swapped(machine, r, disk.nodes, image, plugins)
      ensures SparedAt(home, old(disk.nodes), Dest) ==>
                SameAt(old(disk.nodes), disk.nodes, Dest) || Swapped(machine, r, disk.nodes, image, plugins)
      ensures !PluginsGo(home, old(disk.nodes), Stripped(Trim(r.tag)), generation) ==>
                && (ok ==> Replaced(machine, r, disk.nodes, image, plugins))
                && (SparedAt(home, old(disk.nodes), Dest) ==>
                      SameAt(old(disk.nodes), disk.nodes, Dest) || Replaced(machine, r, disk.nodes, image, plugins))
      ensures OldPluginsStay(home, old(disk.nodes), disk.nodes, Stripped(Trim(r.tag)))
      ensures WebStaysWhole(home, old(disk.nodes), disk.nodes, generation, WebOfRelease(machine, r, WebNow(old(disk.nodes))))
      ensures old(disk.Healthy()) && StagedPlugins !in old(disk.nodes) && !Acceptable(machine, r, WebNow(old(disk.nodes))) ==>
                disk.nodes.Keys !! {Archive, Staged, StagedPlugins, StagedWeb}
      ensures old(disk.Healthy()) && Clear(old(disk.nodes), Stripped(Trim(r.tag))) ==>
                (ok <==> Acceptable(machine, r, None) && !(WebComes(machine, r) && TakesAll(home, old(disk.nodes))))
      ensures old(disk.Healthy()) && Clear(old(disk.nodes), Stripped(Trim(r.tag))) && ok ==>
                (Replaced(machine, r, disk.nodes, image, plugins) <==>
                 !(WebComes(machine, r) && PluginsGo(home, old(disk.nodes), Stripped(Trim(r.tag)), generation)))
      ensures old(disk.Healthy()) && Clear(old(disk.nodes), Stripped(Trim(r.tag))) && ok && WebComes(machine, r) ==>
                (WebFor(home, disk.nodes) == Some(WebOfRelease(machine, r, None).value.site) <==>
                 ShellSpared(home, old(disk.nodes), generation, WebOfRelease(machine, r, None).value.site))
    {
      hide Vetted, PluginsFor, WebFor, Only, SameAt, Aside, Midway, Acceptable, Clear, Shelling, Unpackable, SparedAt, Spared,
           PluginsGo, TakesAll, OldPluginsStay, WebStaysWhole, ShellSpared, Shelled, Stripped, Trim, HasFolder, IsStaged, WebOfRelease;
      var version := Stripped(Trim(r.tag));
      ghost var start := disk.nodes;
      ok, image, plugins := Stage(r);
      ghost var staged := disk.nodes;
      var cleared := disk.Remove(Archive);
      ghost var ready := disk.nodes;
      ghost var web := WebOfRelease(machine, r, WebNow(start));
      StagingIsAside(start, staged, ready, generation);
      ClearMeans(start, staged, ready, version);
      if !ok {
        ClearStaged();
        ClearingIsAside(start, ready, disk.nodes);
        AsideKeeps(home, start, disk.nodes, version, generation, web);
        return;
      }
      ArchiveGone(staged, ready, image, plugins, web);
      ok := InstallPlugins(version, generation, plugins);
      ghost var plugged := disk.nodes;
      PluggingKeeps(home, start, ready, plugged, generation, version, image, web, ok);
      ClearOn(ready, plugged, generation, version);
      if !ok {
        MidwayKeeps(home, start, plugged, version, generation, image, web);
        return;
      }
      ok := InstallWeb(generation);
      ghost var shelled := disk.nodes;
      ShellingKeeps(home, start, plugged, shelled, version, generation, image, plugins, web);
      if old(disk.Healthy()) && ok && web.Some? && web.value.Shell? {
        ShellingExactly(home, start, plugged, shelled, version, generation, image, plugins, web);
      }
      if !ok { return; }
      ok := disk.Rename(Staged, Dest);
      SwapKeeps(home, start, shelled, disk.nodes, version, generation, image, plugins, web, ok);
    }

    /** `update_against`: only a strictly newer release is installed. */
    method Update(r: Release, installed: Version, generation: string)
      returns (done: bool, ghost image: Image, ghost plugins: Contents)
      requires PluginSet(generation) !in disk.nodes && WebSet(generation) !in disk.nodes && Name(generation)
      modifies disk`nodes, disk`clock
      ensures !Newer(r, installed) ==> !done && disk.nodes == old(disk.nodes)
      ensures done ==> Swapped(machine, r, disk.nodes, image, plugins)
      ensures SparedAt(home, old(disk.nodes), Dest) ==>
                || SameAt(old(disk.nodes), disk.nodes, Dest)
                || (Swapped(machine, r, disk.nodes, image, plugins) && Newer(r, installed))
      ensures !PluginsGo(home, old(disk.nodes), Stripped(Trim(r.tag)), generation) ==>
                && (done ==> Replaced(machine, r, disk.nodes, image, plugins))
                && (SparedAt(home, old(disk.nodes), Dest) ==>
                      SameAt(old(disk.nodes), disk.nodes, Dest) || Replaced(machine, r, disk.nodes, image, plugins))
      ensures OldPluginsStay(home, old(disk.nodes), disk.nodes, Stripped(Trim(r.tag)))
      ensures WebStaysWhole(home, old(disk.nodes), disk.nodes, generation, WebOfRelease(machine, r, WebNow(old(disk.nodes))))
      ensures old(disk.Healthy()) && Clear(old(disk.nodes), Stripped(Trim(r.tag))) ==>
                (done <==> && Newer(r, installed) && Acceptable(machine, r, None)
                           && !(WebComes(machine, r) && TakesAll(home, old(disk.nodes))))
      ensures old(disk.Healthy()) && Clear(old(disk.nodes), Stripped(Trim(r.tag))) && done ==>
                (Replaced(machine, r, disk.nodes, image, plugins) <==>
                 !(WebComes(machine, r) && PluginsGo(home, old(disk.nodes), Stripped(Trim(r.tag)), generation)))
      ensures old(disk.Healthy()) && Clear(old(disk.nodes), Stripped(Trim(r.tag))) && done && WebComes(machine, r) ==>
                (WebFor(home, disk.nodes) == Some(WebOfRelease(machine, r, None).value.site) <==>
                 ShellSpared(home, old(disk.nodes), generation, WebOfRelease(machine, r, None).value.site))
    {
      hide *;
      image, plugins := "", map[];
      var published := VersionOf(Trim(r.tag));
      NewerMeans(r, installed);
      if published.None? || !installed.Below(published.value) {
        NothingDone(home, disk.nodes, Stripped(Trim(r.tag)), generation, WebOfRelease(machine, r, WebNow(disk.nodes)));
        return false, image, plugins;
      }
      done, image, plugins := Install(r, generation);
    }
  }

  // ------------------------------------------------------------ what an update leaves behind

  /** The new program is in place, and it was vetted. */
  ghost predicate Swapped(m: Machine, r: Release, nodes: Nodes, image: Image, plugins: Contents) {
    Vetted(m, r, image, plugins) && Dest in nodes && nodes[Dest] == File(image)
  }

  /** And it finds its own three vetted plugins. */
  ghost predicate Replaced(m: Machine, r: Release, nodes: Nodes, image: Image, plugins: Contents) {
    Swapped(m, r, nodes, image, plugins) && PluginsFor(nodes, Stripped(Trim(r.tag))) == Some(plugins)
  }

  /** Programs of every other version still find the plugins they found before, unless those are cleared away
      with the old web shell. */
  ghost predicate OldPluginsStay(home: Home, before: Nodes, after: Nodes, version: string) {
    forall v :: v != version && PluginsFor(before, v).Some? && !PluginsGo(home, before, v, PluginsIn(before, v)) ==>
      PluginsFor(after, v) == PluginsFor(before, v)
  }

  /** A web shell that was there is still there, or the whole new one is. */
  predicate WebStaysWhole(home: Home, before: Nodes, after: Nodes, generation: string, web: Option<Node>) {
    WebFor(home, before).Some? && (web.Some? && web.value.Shell? ==> ShellSpared(home, before, generation, web.value.site)) ==>
      || WebFor(home, after) == WebFor(home, before)
      || (web.Some? && web.value.Shell? && WebFor(home, after) == Some(web.value.site))
  }

  /** Folders may be partly gone; files and links are there whole or not at all. */
  ghost predicate OnlyLost(before: Nodes, after: Nodes) {
    && after.Keys <= before.Keys
    && forall p :: p in after && (before[p].File? || before[p].Link?) ==> after[p] == before[p]
  }

  lemma LostMore(was: Nodes, before: Nodes, now: Nodes, p: Place)
    requires OnlyLost(was, before) && Only(before, now, {p}) && p in before && before[p] == was[p]
    requires p in now && !HasFolder(before, p) ==> now[p] == before[p]
    ensures OnlyLost(was, now)
  {
    forall q | q in now
      ensures q in was && (was[q].File? || was[q].Link? ==> now[q] == was[q])
    {
      assert q != p ==> SameAt(before, now, q);
    }
  }

  function Emptied(n: Node): Node {
    match n
    case Folder(_) => Folder(map[])
    case Shell(_) => Shell(map[])
    case _ => n
  }

  predicate PluginsInPlace(nodes: Nodes, version: string, generation: string, plugins: Contents) {
    && PluginsOf(version) in nodes && nodes[PluginsOf(version)] == Link([generation])
    && PluginSet(generation) in nodes && nodes[PluginSet(generation)] == Folder(plugins)
  }

  /** The release brings a web folder. */
  predicate WebComes(m: Machine, r: Release) {
    WebOfRelease(m, r, None).Some? && WebOfRelease(m, r, None).value.Shell?
  }

  /** Nothing that anybody finds has changed. */
  ghost predicate Aside(before: Nodes, after: Nodes) {
    && SameAt(before, after, Dest) && SameAt(before, after, WebLive)
    && (forall g :: WebSet(g) in before ==> SameAt(before, after, WebSet(g)))
    && (forall g :: PluginSet(g) in before ==> SameAt(before, after, PluginSet(g)))
    && (forall v :: SameAt(before, after, PluginsOf(v)))
  }

  /** The plugins are in place or not, and the web shell and the program are still as they were. */
  ghost predicate Midway(home: Home, start: Nodes, now: Nodes, version: string, generation: string, image: Image, web: Option<Node>) {
    && SameAt(start, now, Dest) && SameAt(start, now, WebLive)
    && (forall v :: v != version && PluginsFor(start, v).Some? ==> OwnPlugins(start, now, v))
    && (WebFor(home, start).Some? ==> WebFor(home, now) == WebFor(home, start))
    && WebNow(now) == web
    && Staged in now && now[Staged] == File(image)
    && WebSet(generation) !in now
  }

  predicate OwnPlugins(start: Nodes, now: Nodes, v: string)
    requires PluginsFor(start, v).Some?
  {
    SameAt(start, now, PluginsOf(v)) && SameAt(start, now, PluginSet(PluginsIn(start, v)))
  }

  /** The tag is a version, and the first part in which it differs from the installed one is greater. */
  ghost predicate Newer(r: Release, installed: Version) {
    VersionOf(Trim(r.tag)).Some? && FirstLess(Numbers(installed), Numbers(VersionOf(Trim(r.tag)).value))
  }

  lemma NewerMeans(r: Release, installed: Version)
    ensures Newer(r, installed) <==> VersionOf(Trim(r.tag)).Some? && installed.Below(VersionOf(Trim(r.tag)).value)
  {
    if VersionOf(Trim(r.tag)).Some? {
      BelowIsFirstLess(installed, VersionOf(Trim(r.tag)).value);
    }
  }

  /** A release that passes every check, and whose web folder fits what is left of an earlier one. */
  ghost predicate Acceptable(m: Machine, r: Release, left: Option<Node>) {
    && (exists image, plugins :: Vetted(m, r, image, plugins))
    && r.archive.Some? && m.unpack(r.archive.value).Some? && Unpackable(left, m.unpack(r.archive.value).value)
  }

  lemma SoleUnique(members: seq<Member>, name: string, a: Image, b: Image)
    requires SoleIn(members, |members|, name, a) && SoleIn(members, |members|, name, b)
    ensures a == b
  {
  }

  lemma AcceptableReports(m: Machine, r: Release, left: Option<Node>, image: Image, plugins: Contents)
    requires Acceptable(m, r, left) && plugins.Keys == Plugins()
    requires SoleIn(m.unpack(r.archive.value).value, |m.unpack(r.archive.value).value|, BINARY, image)
    requires forall name :: name in Plugins() ==>
               SoleIn(m.unpack(r.archive.value).value, |m.unpack(r.archive.value).value|, name, plugins[name])
    ensures Reports(m, r, image) && forall name :: name in Plugins() ==> Reports(m, r, plugins[name])
  {
    hide Plugins, SoleIn, Reports;
    var members := m.unpack(r.archive.value).value;
    var i, p :| Vetted(m, r, i, p);
    SoleUnique(members, BINARY, image, i);
    forall name | name in Plugins() ensures Reports(m, r, plugins[name]) {
      SoleUnique(members, name, plugins[name], p[name]);
    }
  }

  lemma AcceptableMeans(m: Machine, r: Release, left: Option<Node>)
    ensures Acceptable(m, r, left) ==>
              && r.archive.Some? && r.sums.Some? && SumFor(r.sums.value, r.asset) == Some(m.hash(r.archive.value))
              && m.unpack(r.archive.value).Some? && Unpackable(left, m.unpack(r.archive.value).value)
  {
    hide SumFor, Unpackable;
  }

  lemma VettedIsAcceptable(m: Machine, r: Release, left: Option<Node>, image: Image, plugins: Contents)
    requires Vetted(m, r, image, plugins) && Unpackable(left, m.unpack(r.archive.value).value)
    ensures Acceptable(m, r, left)
  {
    hide Vetted, Unpackable;
    assert r.archive.Some? && m.unpack(r.archive.value).Some? by { VettedMeans(m, r, image, plugins); }
  }

  /** Main result: what it takes to be vetted. The archive has the digest that the list gives for it; the program
      and each of the three plugins is the content of a plain member of its name, the only one of that name;
      and each, when it was run, said that it is the version of the tag. */
  lemma VettedSays(m: Machine, r: Release, image: Image, plugins: Contents, name: string)
    requires Vetted(m, r, image, plugins)
    requires name == BINARY || name in Plugins()
    ensures r.archive.Some? && r.sums.Some? && SumFor(r.sums.value, r.asset) == Some(m.hash(r.archive.value))
    ensures plugins.Keys == Plugins() && m.unpack(r.archive.value).Some?
    ensures var content := if name == BINARY then image else plugins[name];
            var members := m.unpack(r.archive.value).value;
            && m.reports(content) == Some(Stripped(Trim(r.tag)))
            && (exists i :: 0 <= i < |members| && members[i].Web().None? && members[i].name == name && members[i].kind.PlainFile?
                            && members[i].content == content)
            && (forall i, j :: 0 <= i < j < |members| && members[i].Web().None? && members[j].Web().None? ==>
                  !(members[i].name == name && members[j].name == name))
  {
    hide SumFor, Plugins, Split, Member.Web;
    var content := if name == BINARY then image else plugins[name];
    var members := m.unpack(r.archive.value).value;
    assert SoleIn(members, |members|, name, content) && Reports(m, r, content);
    var i :| 0 <= i < |members| && IsProgram(members[i], name) && members[i].kind.PlainFile? && members[i].content == content
             && forall j :: 0 <= j < |members| && j != i ==> !IsProgram(members[j], name);
    assert members[i].name == name;
    forall j, k | 0 <= j < k < |members| && members[j].Web().None? && members[k].Web().None?
      ensures !(members[j].name == name && members[k].name == name)
    {
      assert j != i || k != i;
      assert IsProgram(members[j], members[j].name) && IsProgram(members[k], members[k].name);
    }
  }

  /** There are such releases: four plain programs, each of which says the version of the tag, and a list that has the
      archive's digest. */
  lemma GoodRelease(v: Version, image: Image) returns (m: Machine, r: Release, plugins: Contents)
    requires v.major < U64_LIMIT && v.minor < U64_LIMIT && v.patch < U64_LIMIT
    ensures r.tag == "v" + PrintVersion(v) && Vetted(m, r, image, plugins) && Acceptable(m, r, None) && !WebComes(m, r)
    ensures Clear(map[], PrintVersion(v))
  {
    var members := [Member(BINARY, PlainFile, image), Member("komo-channel-feishu", PlainFile, image),
                    Member("komo-channel-telegram", PlainFile, image), Member("komo-channel-wechat", PlainFile, image)];
    m := Machine(i => "d", i => Some(members), i => Some(Stripped(Trim("v" + PrintVersion(v)))));
    r := Release("v" + PrintVersion(v), Some("a"), Some(PrintSums([Sum("d", "komo")])), "komo");
    plugins := map name | name in Plugins() :: image;
    hide PrintVersion, SumFor, SoleIn, Unpackable, Trim, Stripped, PrintSums, WebAfter, Plugins;
    GoodSums();
    GoodMembers(members, image);
    assert Vetted(m, r, image, plugins);
    VettedIsAcceptable(m, r, None, image, plugins);
    hide Vetted, Acceptable;
  }

  lemma GoodSums()
    ensures SumFor(PrintSums([Sum("d", "komo")]), "komo") == Some("d")
  {
    assert forall c :: c in "d" ==> !IsSpace(c);
    assert forall c :: c in "komo" ==> !IsSpace(c);
    SumsAreRead([Sum("d", "komo")], "komo");
    assert Lower("d") == "d";
  }

  lemma GoodMembers(members: seq<Member>, image: Image)
    requires members == [Member(BINARY, PlainFile, image), Member("komo-channel-feishu", PlainFile, image),
                         Member("komo-channel-telegram", PlainFile, image), Member("komo-channel-wechat", PlainFile, image)]
    ensures forall name :: name in Plugins() + {BINARY} ==> SoleIn(members, 4, name, image)
    ensures Unpackable(None, members) && WebAfter(None, members, 4) == None
  {
    hide Member.Web, SoleIn, WebAfter, Plugins;
    NoWeb(members[0]);
    NoWeb(members[1]);
    NoWeb(members[2]);
    NoWeb(members[3]);
    var a, b, c, d := members[0].name, members[1].name, members[2].name, members[3].name;
    assert |a| == 4 && |b| == 19 && |c| == 21 && |d| == 19 && b[13] == 'f' && d[13] == 'w';
    SoleAt(members, image, 0);
    SoleAt(members, image, 1);
    SoleAt(members, image, 2);
    SoleAt(members, image, 3);
    FourPrograms();
    NothingStaged(members);
  }

  lemma NothingStaged(members: seq<Member>)
    requires |members| == 4 && members[0].Web().None? && members[1].Web().None? && members[2].Web().None? && members[3].Web().None?
    ensures AllFit(None, members, 4) && WebAfter(None, members, 4) == None
  {
    hide Member.Web, Fits;
    assert WebAfter(None, members, 1) == None;
    assert WebAfter(None, members, 2) == None;
    assert WebAfter(None, members, 3) == None;
  }

  lemma NoWeb(x: Member)
    requires x.name in {"komo", "komo-channel-feishu", "komo-channel-telegram", "komo-channel-wechat"}
    ensures x.Web().None?
  {
    hide Split, Parts;
    assert '/' !in x.name;
    OnePiece(x.name, '/');
    assert x.name[0] == 'k';
  }

  lemma SoleAt(members: seq<Member>, image: Image, i: nat)
    requires |members| == 4 && i < 4 && members[i].Web().None? && members[i].kind.PlainFile? && members[i].content == image
    requires forall j :: 0 <= j < 4 && j != i ==> members[j].name != members[i].name
    ensures SoleIn(members, 4, members[i].name, image)
  {
    hide Member.Web;
    assert IsProgram(members[i], members[i].name);
  }

  lemma VettedMeans(m: Machine, r: Release, image: Image, plugins: Contents)
    requires Vetted(m, r, image, plugins)
    ensures r.archive.Some? && m.unpack(r.archive.value).Some?
  {
  }

  /** Nothing stands in the way of an update: no leftovers of this process number, and no real folders
      where the updater keeps links. */
  predicate Clear(nodes: Nodes, version: string) {
    && StagedPlugins !in nodes && StagedWeb !in nodes && PluginsNew(version) !in nodes && WebNew !in nodes
    && !HasFolder(nodes, PluginsOf(version)) && !HasFolder(nodes, WebLive)
  }

  lemma StagingIsAside(start: Nodes, staged: Nodes, ready: Nodes, generation: string)
    requires Only(start, staged, {Archive, Staged, StagedPlugins, StagedWeb})
    requires PluginSet(generation) !in start && WebSet(generation) !in start
    requires ready == staged || ready == staged - {Archive}
    ensures Aside(start, ready) && PluginSet(generation) !in ready && WebSet(generation) !in ready
  {
    forall p: Place | p !in {Archive, Staged, StagedPlugins, StagedWeb}
      ensures SameAt(start, ready, p)
    {
      assert SameAt(start, staged, p);
    }
    assert SameAt(start, ready, PluginSet(generation)) && SameAt(start, ready, WebSet(generation));
  }

  lemma ClearMeans(start: Nodes, staged: Nodes, ready: Nodes, version: string)
    requires Only(start, staged, {Archive, Staged, StagedPlugins, StagedWeb})
    requires ready == staged || ready == staged - {Archive}
    ensures Clear(start, version) ==>
              && PluginsNew(version) !in ready && WebNew !in ready
              && !HasFolder(ready, PluginsOf(version)) && !HasFolder(ready, WebLive)
              && StagedPlugins !in start && WebNow(start) == None
  {
    assert SameAt(start, staged, PluginsNew(version)) && SameAt(start, staged, WebNew);
    assert SameAt(start, staged, PluginsOf(version)) && SameAt(start, staged, WebLive);
  }

  lemma ClearOn(ready: Nodes, plugged: Nodes, generation: string, version: string)
    requires Only(ready, plugged, {StagedPlugins, PluginsNew(version), PluginSet(generation), PluginsOf(version)})
    ensures WebNew !in ready && !HasFolder(ready, WebLive) ==> WebNew !in plugged && !HasFolder(plugged, WebLive)
  {
    assert SameAt(ready, plugged, WebNew) && SameAt(ready, plugged, WebLive);
  }

  lemma ClearingIsAside(start: Nodes, ready: Nodes, now: Nodes)
    requires Aside(start, ready) && Only(ready, now, {Staged, StagedPlugins, StagedWeb})
    ensures Aside(start, now)
  {
    assert SameAt(ready, now, Dest) && SameAt(ready, now, WebLive);
    forall g | WebSet(g) in start ensures SameAt(start, now, WebSet(g)) {
      assert SameAt(start, ready, WebSet(g)) && SameAt(ready, now, WebSet(g));
    }
    forall g | PluginSet(g) in start ensures SameAt(start, now, PluginSet(g)) {
      assert SameAt(start, ready, PluginSet(g)) && SameAt(ready, now, PluginSet(g));
    }
    forall v ensures SameAt(start, now, PluginsOf(v)) {
      assert SameAt(start, ready, PluginsOf(v)) && SameAt(ready, now, PluginsOf(v));
    }
  }

  lemma ArchiveGone(staged: Nodes, ready: Nodes, image: Image, plugins: Contents, web: Option<Node>)
    requires ready == staged || ready == staged - {Archive}
    requires IsStaged(staged, image, plugins) && WebNow(staged) == web
    ensures IsStaged(ready, image, plugins) && WebNow(ready) == web
    ensures Staged in ready && ready[Staged] == File(image)
    ensures StagedPlugins in ready && ready[StagedPlugins] == Folder(plugins)
  {
  }

  lemma SameWeb(home: Home, before: Nodes, after: Nodes)
    requires SameAt(before, after, WebLive) && WebFor(home, before).Some?
    requires forall g :: WebSet(g) in before ==> SameAt(before, after, WebSet(g))
    ensures WebFor(home, after) == WebFor(home, before)
  {
    hide Generation;
  }

  lemma PluggingKeeps(home: Home, start: Nodes, ready: Nodes, plugged: Nodes, generation: string, version: string, image: Image,
                      web: Option<Node>, ok: bool)
    requires Aside(start, ready) && PluginSet(generation) !in ready && WebSet(generation) !in ready
    requires Only(ready, plugged, {StagedPlugins, PluginsNew(version), PluginSet(generation), PluginsOf(version)})
    requires !ok ==> SameAt(ready, plugged, PluginsOf(version))
    requires Staged in ready && ready[Staged] == File(image) && WebNow(ready) == web
    ensures Midway(home, start, plugged, version, generation, image, web) && WebSet(generation) !in plugged && WebNow(plugged) == web
  {
    hide WebFor;
    assert SameAt(ready, plugged, Dest) && SameAt(ready, plugged, WebLive) && SameAt(ready, plugged, Staged);
    assert SameAt(ready, plugged, StagedWeb) && SameAt(ready, plugged, WebSet(generation));
    forall g | WebSet(g) in start ensures SameAt(start, plugged, WebSet(g)) {
      assert SameAt(start, ready, WebSet(g)) && SameAt(ready, plugged, WebSet(g));
    }
    forall v | v != version && PluginsFor(start, v).Some? ensures OwnPlugins(start, plugged, v) {
      var g := PluginsIn(start, v);
      assert SameAt(start, ready, PluginsOf(v)) && SameAt(ready, plugged, PluginsOf(v));
      assert SameAt(start, ready, PluginSet(g)) && SameAt(ready, plugged, PluginSet(g));
    }
    if WebFor(home, start).Some? {
      SameWeb(home, start, plugged);
    }
  }

  lemma OwnPluginsFound(start: Nodes, now: Nodes, v: string)
    requires PluginsFor(start, v).Some? && OwnPlugins(start, now, v)
    ensures PluginsFor(now, v) == PluginsFor(start, v)
  {
  }

  lemma MidwayKeeps(home: Home, start: Nodes, now: Nodes, version: string, generation: string, image: Image, web: Option<Node>)
    requires Midway(home, start, now, version, generation, image, web)
    ensures SameAt(start, now, Dest) && OldPluginsStay(home, start, now, version)
    ensures WebStaysWhole(home, start, now, generation, web)
  {
    hide WebFor, PluginsFor, PluginsGo, OwnPlugins;
    forall v | v != version && PluginsFor(start, v).Some?
      ensures PluginsFor(now, v) == PluginsFor(start, v)
    {
      OwnPluginsFound(start, now, v);
    }
  }

  lemma AsideKeeps(home: Home, before: Nodes, after: Nodes, version: string, generation: string, web: Option<Node>)
    requires Aside(before, after)
    ensures SameAt(before, after, Dest) && OldPluginsStay(home, before, after, version)
    ensures WebStaysWhole(home, before, after, generation, web)
  {
    hide WebFor, PluginsGo;
    if WebFor(home, before).Some? {
      SameWeb(home, before, after);
    }
  }

  lemma NothingDone(home: Home, nodes: Nodes, version: string, generation: string, web: Option<Node>)
    ensures SameAt(nodes, nodes, Dest) && OldPluginsStay(home, nodes, nodes, version)
    ensures WebStaysWhole(home, nodes, nodes, generation, web)
  {
  }

  // ------------------------------------------------------------ the web shell's turn

  /** What an `install_web` that may have stopped anywhere leaves, place by place. */
  ghost predicate Shelling(home: Home, before: Nodes, after: Nodes, generation: string) {
    && (forall p :: p !in {StagedWeb, WebNew, WebLive, WebSet(generation)} && SparedAt(home, before, p) ==> SameAt(before, after, p))
    && OnlyLost(before - {StagedWeb, WebNew, WebLive, WebSet(generation)}, after - {StagedWeb, WebNew, WebLive, WebSet(generation)})
  }

  /** The first steps of an `install_web` change only what is its own. */
  lemma SameShell(home: Home, start: Nodes, now: Nodes, generation: string)
    requires WebSet(generation) !in start && HasShell(start, StagedWeb)
    requires || now == start || now == start[WebSet(generation) := start[StagedWeb]] - {StagedWeb}
             || now == (start[WebSet(generation) := start[StagedWeb]] - {StagedWeb})[WebNew := Link([WEB_ROOT, generation])]
    ensures Shelling(home, start, now, generation) && SameAt(start, now, WebLive)
    ensures WebFor(home, start).Some? ==> WebFor(home, now) == WebFor(home, start)
  {
    hide Spared, Generation;
    forall p | p !in {StagedWeb, WebNew, WebLive, WebSet(generation)} ensures SameAt(start, now, p) {
    }
    if WebFor(home, start).Some? {
      SameWeb(home, start, now);
    }
  }

  lemma ShellCleared(home: Home, start: Nodes, now: Nodes, generation: string)
    requires WebSet(generation) !in start && HasShell(start, StagedWeb) && Name(generation) && Doomed(home, start).Some?
    requires OnlyLost(Linked(start, generation), now)
    requires forall p :: p in Linked(start, generation)
                         && Kept(Linked(start, generation)[p], PathOf(home, p), Doomed(home, start).value) == Some(Linked(start, generation)[p]) ==>
               p in now && now[p] == Linked(start, generation)[p]
    ensures Shelling(home, start, now, generation)
    ensures ShellSpared(home, start, generation, start[StagedWeb].site) ==> WebFor(home, now) == Some(start[StagedWeb].site)
  {
    hide Kept, PathOf, Doomed, ShellSpared, Generation;
    var linked := Linked(start, generation);
    ShellSparedMeans(home, start, generation, start[StagedWeb].site);
    OwnLink(home, generation);
    forall p | p !in {StagedWeb, WebNew, WebLive, WebSet(generation)} && SparedAt(home, start, p)
      ensures SameAt(start, now, p)
    {
      assert SameAt(start, linked, p);
    }
  }

  lemma SameDoom(home: Home, a: Nodes, b: Nodes)
    requires SameAt(a, b, WebLive)
    ensures Doomed(home, a) == Doomed(home, b)
    ensures TakesAll(home, a) <==> TakesAll(home, b)
    ensures forall p, n :: Spared(home, a, p, n) <==> Spared(home, b, p, n)
    ensures forall v, g :: PluginsGo(home, a, v, g) <==> PluginsGo(home, b, v, g)
    ensures forall g, site :: ShellSpared(home, a, g, site) <==> ShellSpared(home, b, g, site)
  {
    hide Kept, PathOf, Resolve;
  }

  lemma PluginsThrough(home: Home, before: Nodes, after: Nodes, generation: string, v: string)
    requires Shelling(home, before, after, generation) && PluginsFor(before, v).Some?
    requires !PluginsGo(home, before, v, PluginsIn(before, v))
    ensures PluginsFor(after, v) == PluginsFor(before, v)
  {
    hide Spared, PluginsGo, OnlyLost;
    var g := PluginsIn(before, v);
    PluginsSpared(home, before, v, g, PluginsFor(before, v).value);
    assert before[PluginsOf(v)].text == [g];
    assert SameAt(before, after, PluginsOf(v)) && SameAt(before, after, PluginSet(g));
  }

  lemma OthersThrough(home: Home, start: Nodes, plugged: Nodes, shelled: Nodes, version: string, generation: string,
                      image: Image, web: Option<Node>)
    requires Midway(home, start, plugged, version, generation, image, web)
    requires Shelling(home, plugged, shelled, generation)
    ensures OldPluginsStay(home, start, shelled, version)
  {
    hide Shelling, PluginsGo, WebFor, PluginsFor, OwnPlugins, PluginsIn;
    SameDoom(home, start, plugged);
    forall v | v != version && PluginsFor(start, v).Some? && !PluginsGo(home, start, v, PluginsIn(start, v))
      ensures PluginsFor(shelled, v) == PluginsFor(start, v)
    {
      OwnPluginsFound(start, plugged, v);
      OwnLinkText(start, plugged, v);
      PluginsThrough(home, plugged, shelled, generation, v);
    }
  }

  lemma OwnLinkText(start: Nodes, now: Nodes, v: string)
    requires PluginsFor(start, v).Some? && OwnPlugins(start, now, v)
    ensures PluginsFor(now, v).Some? && PluginsIn(now, v) == PluginsIn(start, v)
  {
  }

  lemma ShellingKeeps(home: Home, start: Nodes, plugged: Nodes, shelled: Nodes, version: string, generation: string,
                      image: Image, plugins: Contents, web: Option<Node>)
    requires Midway(home, start, plugged, version, generation, image, web)
    requires Shelling(home, plugged, shelled, generation) && PluginsInPlace(plugged, version, generation, plugins)
    requires HasShell(plugged, StagedWeb) && ShellSpared(home, plugged, generation, plugged[StagedWeb].site)
             && WebFor(home, plugged).Some? ==>
               WebFor(home, shelled) == WebFor(home, plugged) || WebFor(home, shelled) == Some(plugged[StagedWeb].site)
    requires !HasShell(plugged, StagedWeb) ==> shelled == plugged
    ensures SparedAt(home, start, Dest) ==> SameAt(start, shelled, Dest)
    ensures Staged in shelled ==> shelled[Staged] == File(image)
    ensures !TakesAll(home, start) || !HasShell(plugged, StagedWeb) ==> Staged in shelled
    ensures !HasShell(plugged, StagedWeb) ==> PluginsInPlace(shelled, version, generation, plugins)
    ensures OldPluginsStay(home, start, shelled, version)
    ensures WebStaysWhole(home, start, shelled, generation, web)
    ensures !PluginsGo(home, start, version, generation) ==> PluginsInPlace(shelled, version, generation, plugins)
  {
    hide Spared, PluginsGo, WebFor, PluginsFor, OwnPlugins, ShellSpared, TakesAll, OldPluginsStay, Below;
    SameDoom(home, start, plugged);
    OthersThrough(home, start, plugged, shelled, version, generation, image, web);
    PluginsSpared(home, plugged, version, generation, plugins);
    FileSpared(home, plugged, Staged, image) by { OneName(home); }
    if SparedAt(home, start, Dest) {
      assert SparedAt(home, plugged, Dest);
      assert SameAt(plugged, shelled, Dest);
    }
    if Staged in shelled {
      assert Staged in shelled - {StagedWeb, WebNew, WebLive, WebSet(generation)};
    }
    if !TakesAll(home, start) {
      assert SparedAt(home, plugged, Staged);
      assert SameAt(plugged, shelled, Staged);
    }
    if !PluginsGo(home, start, version, generation) {
      assert SparedAt(home, plugged, PluginsOf(version)) && SparedAt(home, plugged, PluginSet(generation));
      assert SameAt(plugged, shelled, PluginsOf(version)) && SameAt(plugged, shelled, PluginSet(generation));
    }
  }

  lemma KeptWhole(n: Node, at: Path, gone: Path)
    ensures !n.Shell? && Kept(n, at, gone).Some? ==> Kept(n, at, gone).value == n
  {
  }

  lemma OneName(home: Home)
    ensures |Below(home, Staged)| == 1
  {
  }

  /** When nothing goes wrong, exactly what the clearing takes is gone. */
  lemma ShellingExactly(home: Home, start: Nodes, plugged: Nodes, shelled: Nodes, version: string, generation: string,
                        image: Image, plugins: Contents, web: Option<Node>)
    requires Midway(home, start, plugged, version, generation, image, web) && web.Some? && web.value.Shell? && Name(generation)
    requires PluginsInPlace(plugged, version, generation, plugins)
    requires HasShell(plugged, StagedWeb) ==> shelled == Shelled(home, plugged, generation)
    ensures Staged in shelled <==> !TakesAll(home, start)
    ensures PluginsInPlace(shelled, version, generation, plugins) <==> !PluginsGo(home, start, version, generation)
    ensures PluginsInPlace(shelled, version, generation, plugins) <==> PluginsFor(shelled, version) == Some(plugins)
    ensures WebFor(home, shelled) == Some(web.value.site) <==> ShellSpared(home, start, generation, web.value.site)
  {
    hide PluginsGo, TakesAll, PathOf, Doomed, ShellSpared, WebFor;
    SameDoom(home, start, plugged);
    NewShellIsFound(home, plugged, generation);
    FileSpared(home, plugged, Staged, image) by { OneName(home); }
    PluginsSpared(home, plugged, version, generation, plugins);
  }

  lemma SwapKeeps(home: Home, start: Nodes, shelled: Nodes, now: Nodes, version: string, generation: string, image: Image,
                  plugins: Contents, web: Option<Node>, ok: bool)
    requires OldPluginsStay(home, start, shelled, version) && WebStaysWhole(home, start, shelled, generation, web)
    requires Staged in shelled ==> shelled[Staged] == File(image)
    requires ok ==> Staged in shelled
    requires now == if ok then shelled[Dest := shelled[Staged]] - {Staged} else shelled
    ensures !ok ==> SameAt(shelled, now, Dest)
    ensures ok ==> Dest in now && now[Dest] == File(image)
    ensures OldPluginsStay(home, start, now, version) && WebStaysWhole(home, start, now, generation, web)
    ensures PluginsFor(now, version) == PluginsFor(shelled, version) && WebFor(home, now) == WebFor(home, shelled)
    ensures PluginsInPlace(shelled, version, generation, plugins) ==> PluginsFor(now, version) == Some(plugins)
  {
    hide PluginsGo, ShellSpared, Generation;
    forall v ensures PluginsFor(now, v) == PluginsFor(shelled, v) {
    }
    assert WebFor(home, now) == WebFor(home, shelled);
  }

  predicate IsStaged(nodes: Nodes, image: Image, plugins: Contents) {
    && Staged in nodes && nodes[Staged] == File(image)
    && StagedPlugins in nodes && nodes[StagedPlugins] == Folder(plugins)
  }

  /** What a release that can be unpacked leaves under the name that the web folder is staged to. */
  function WebOfRelease(m: Machine, r: Release, left: Option<Node>): Option<Node> {
    if r.archive.Some? && m.unpack(r.archive.value).Some?
    then WebAfter(left, m.unpack(r.archive.value).value, |m.unpack(r.archive.value).value|) else left
  }

  lemma Wider(before: Nodes, after: Nodes, s: set<Place>)
    requires Only(before, after, s) && s <= {Archive, Staged, StagedPlugins, StagedWeb}
    ensures Only(before, after, {Archive, Staged, StagedPlugins, StagedWeb})
  {
  }

  lemma LeftStays(before: Nodes, after: Nodes)
    requires Only(before, after, {Archive})
    ensures WebNow(after) == WebNow(before)
    ensures StagedPlugins in after <==> StagedPlugins in before
  {
    assert SameAt(before, after, StagedWeb) && SameAt(before, after, StagedPlugins);
  }

  lemma UnpackedAll(nodes: Nodes, members: seq<Member>)
    requires Unpacked(nodes, members, |members|, Plugins() + {BINARY})
    ensures Staged in nodes && nodes[Staged].File? && SoleIn(members, |members|, BINARY, nodes[Staged].image)
    ensures StagedPlugins in nodes && nodes[StagedPlugins].Folder? && nodes[StagedPlugins].contents.Keys == Plugins()
    ensures forall name :: name in Plugins() ==> SoleIn(members, |members|, name, nodes[StagedPlugins].contents[name])
  {
    hide Plugins, SoleIn, NoneIn;
  }

  // ------------------------------------------------------------ what has been unpacked

  /** An archive as the release process makes it: each program once, and web members that can all be put in place. */
  ghost predicate Unpackable(left: Option<Node>, members: seq<Member>) {
    && AllFit(left, members, |members|)
    && (forall name :: name in Plugins() + {BINARY} ==> exists content :: SoleIn(members, |members|, name, content))
  }

  lemma UnpackableAt(nodes: Nodes, left: Option<Node>, members: seq<Member>, n: nat, found: set<string>)
    requires n < |members| && Unpacked(nodes, members, n, found)
    ensures Unpackable(left, members) && members[n].Web().Some? ==> Fits(WebAfter(left, members, n), members[n])
    ensures Unpackable(left, members) && members[n].Web().None? && members[n].name in Plugins() + {BINARY} ==>
              members[n].kind.PlainFile? && members[n].name !in found
  {
    hide Plugins, Fits, Member.Web;
    var x := members[n];
    if Unpackable(left, members) && x.Web().None? && x.name in Plugins() + {BINARY} {
      var content :| SoleIn(members, |members|, x.name, content);
      assert IsProgram(x, x.name);
    }
  }

  lemma UnpackableAll(nodes: Nodes, left: Option<Node>, members: seq<Member>, found: set<string>)
    requires Unpacked(nodes, members, |members|, found) && AllFit(left, members, |members|)
    ensures found == Plugins() + {BINARY} <==> Unpackable(left, members)
  {
    hide Plugins, AllFit, SoleIn;
    if Unpackable(left, members) {
      forall name | name in Plugins() + {BINARY}
        ensures name in found
      {
        var content :| SoleIn(members, |members|, name, content);
        NotNone(members, name, content);
      }
    } else if found == Plugins() + {BINARY} {
      forall name | name in Plugins() + {BINARY}
        ensures exists content :: SoleIn(members, |members|, name, content)
      {
        assert SoleIn(members, |members|, name, if name == BINARY then nodes[Staged].image else nodes[StagedPlugins].contents[name]);
      }
    }
  }

  lemma NotNone(members: seq<Member>, name: string, content: Image)
    requires SoleIn(members, |members|, name, content)
    ensures !NoneIn(members, |members|, name)
  {
  }

  /** The programs among the first `n` members: those in `found` are staged, each the only one of its name. */
  ghost predicate Unpacked(nodes: Nodes, members: seq<Member>, n: nat, found: set<string>)
    requires n <= |members|
  {
    && StagedPlugins in nodes && nodes[StagedPlugins].Folder?
    && found <= Plugins() + {BINARY}
    && nodes[StagedPlugins].contents.Keys == found - {BINARY}
    && (BINARY in found ==> Staged in nodes && nodes[Staged].File? && SoleIn(members, n, BINARY, nodes[Staged].image))
    && (forall name :: name in found && name != BINARY ==> SoleIn(members, n, name, nodes[StagedPlugins].contents[name]))
    && (forall name :: name in Plugins() + {BINARY} && name !in found ==> NoneIn(members, n, name))
  }

  lemma UnpackedMeans(nodes: Nodes, members: seq<Member>, n: nat, found: set<string>)
    requires n <= |members| && Unpacked(nodes, members, n, found)
    ensures StagedPlugins in nodes && nodes[StagedPlugins].Folder?
  {
  }

  lemma NothingUnpacked(before: Nodes, after: Nodes, members: seq<Member>)
    requires StagedPlugins !in before && after == before[StagedPlugins := Folder(map[])]
    ensures Unpacked(after, members, 0, {}) && Only(before, after, {Staged, StagedPlugins, StagedWeb})
    ensures WebNow(after) == WebNow(before)
  {
  }

  lemma WebStays(before: Nodes, after: Nodes, place: Place)
    requires Only(before, after, {place}) && place != StagedWeb
    ensures WebNow(after) == WebNow(before)
  {
    assert SameAt(before, after, StagedWeb);
  }

  lemma SoleNext(members: seq<Member>, n: nat, name: string, content: Image)
    requires n < |members| && !IsProgram(members[n], name)
    ensures SoleIn(members, n, name, content) ==> SoleIn(members, n + 1, name, content)
    ensures NoneIn(members, n, name) ==> NoneIn(members, n + 1, name)
  {
    if SoleIn(members, n, name, content) {
      var i :| 0 <= i < n && IsProgram(members[i], name) && members[i].kind.PlainFile? && members[i].content == content
               && forall j :: 0 <= j < n && j != i ==> !IsProgram(members[j], name);
      assert forall j :: 0 <= j < n + 1 && j != i ==> !IsProgram(members[j], name);
    }
  }

  lemma SoleNew(members: seq<Member>, n: nat)
    requires n < |members| && members[n].Web().None? && members[n].kind.PlainFile? && NoneIn(members, n, members[n].name)
    ensures SoleIn(members, n + 1, members[n].name, members[n].content)
  {
    assert IsProgram(members[n], members[n].name);
  }

  /** A member that is none of the four programs. */
  lemma UnpackedSkip(before: Nodes, after: Nodes, members: seq<Member>, n: nat, found: set<string>)
    requires n < |members| && Unpacked(before, members, n, found) && Only(before, after, {StagedWeb})
    requires members[n].Web().Some? || members[n].name !in Plugins() + {BINARY}
    ensures Unpacked(after, members, n + 1, found)
  {
    hide SoleIn, NoneIn, Plugins;
    assert SameAt(before, after, Staged) && SameAt(before, after, StagedPlugins);
    forall name | name in found && name != BINARY
      ensures SoleIn(members, n + 1, name, after[StagedPlugins].contents[name])
    {
      SoleNext(members, n, name, after[StagedPlugins].contents[name]);
    }
    if BINARY in found {
      SoleNext(members, n, BINARY, after[Staged].image);
    }
    forall name | name in Plugins() + {BINARY} && name !in found
      ensures NoneIn(members, n + 1, name)
    {
      SoleNext(members, n, name, "");
    }
  }

  lemma UnpackedProgram(before: Nodes, after: Nodes, members: seq<Member>, n: nat, found: set<string>)
    requires n < |members| && Unpacked(before, members, n, found)
    requires members[n].Web().None? && members[n].kind.PlainFile? && members[n].name in Plugins() + {BINARY} && members[n].name !in found
    requires Only(before, after, {if members[n].name == BINARY then Staged else StagedPlugins})
    requires members[n].name == BINARY ==> Staged in after && after[Staged] == File(members[n].content)
    requires members[n].name != BINARY ==>
               && StagedPlugins in after
               && after[StagedPlugins] == Folder(before[StagedPlugins].contents[members[n].name := members[n].content])
    ensures Unpacked(after, members, n + 1, found + {members[n].name})
  {
    hide SoleIn, NoneIn, Plugins;
    var x := members[n];
    SoleNew(members, n);
    assert if x.name == BINARY then SameAt(before, after, StagedPlugins) else SameAt(before, after, Staged);
    forall name | name in found && name != BINARY
      ensures SoleIn(members, n + 1, name, after[StagedPlugins].contents[name])
    {
      SoleNext(members, n, name, before[StagedPlugins].contents[name]);
    }
    if BINARY in found {
      SoleNext(members, n, BINARY, after[Staged].image);
    }
    forall name | name in Plugins() + {BINARY} && name !in found + {x.name}
      ensures NoneIn(members, n + 1, name)
    {
      SoleNext(members, n, name, "");
    }
  }
}
