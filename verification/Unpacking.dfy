/** The web members of a release archive (crates/komo/src/update.rs:427-499, `extract_web_entry`): each is put
    below the staged web folder, in the order of the archive. */
module Unpacking {
  import opened Installation
  import opened Text

  datatype Kind = PlainFile | FolderMember | Special

  /** The parts of a path: empty ones and `.` do not count. */
  function Parts(pieces: seq<string>): Path {
    if pieces == [] then []
    else if pieces[0] == "" || pieces[0] == "." then Parts(pieces[1..])
    else [pieces[0]] + Parts(pieces[1..])
  }

  /** One entry of a release archive. */
  datatype Member = Member(name: string, kind: Kind, content: Image) {
    /** Its path below the web folder, if it is there. */
    function Web(): Option<Path> {
      var pieces := Split(name, '/');
      if pieces[0] == WEB then Some(Parts(pieces[1..])) else None
    }
  }

  lemma PartsOf(a: seq<string>, b: seq<string>, s: string)
    ensures Parts([s]) == if s == "" || s == "." then [] else [s]
    ensures Parts(a + b) == Parts(a) + Parts(b)
  {
    assert [s][1..] == [];
    PartsAdd(a, b);
  }

  lemma {:induction false} PartsAdd(a: seq<string>, b: seq<string>)
    ensures Parts(a + b) == Parts(a) + Parts(b)
  {
    if a == [] {
      assert a + b == b;
    } else {
      assert (a + b)[1..] == a[1..] + b;
      PartsAdd(a[1..], b);
    }
  }

  /** Which members are the web folder's: the one called `web` and those whose name starts with `web/`; what follows
      is the path. */
  lemma WebMembersExactly(x: Member, rest: string)
    ensures x.Web().Some? <==> x.name == "web" || StartsWith(x.name, "web/")
    ensures x.name == "web" ==> x.Web() == Some([])
    ensures x.name == "web/" + rest ==> x.Web() == Some(Parts(Split(rest, '/')))
  {
    FirstPiece(x.name);
    if x.name == "web/" + rest {
      SplitFirst("web", rest, '/');
      assert "web" + ['/'] + rest == "web/" + rest;
      assert ([ "web" ] + Split(rest, '/'))[1..] == Split(rest, '/');
    }
  }

  lemma FirstPiece(name: string)
    ensures Split(name, '/')[0] == "web" <==> name == "web" || StartsWith(name, "web/")
    ensures name == "web" ==> Split(name, '/') == ["web"]
  {
    assert '/' !in "web";
    assert StartsWith(name, "web/") ==> name[..4][3] == name[3] == '/';
    if '/' in name {
      var i := IndexOf(name, '/');
      if name[..i] == "web" {
        assert name[..4] == "web" + [name[3]] == "web/";
      }
      if StartsWith(name, "web/") {
        assert name[3] == name[..4][3] == '/' && name[0] == name[..4][0] && name[1] == name[..4][1] && name[2] == name[..4][2];
        assert i == 3 && name[..i] == name[..4][..3] == "web";
      }
    }
  }

  /** Parents first: every folder on the way that is not there yet. */
  function WithFolders(site: Site, path: Path): Site {
    if path == [] then site
    else
      var above := WithFolders(site, path[..|path| - 1]);
      if path in above then above else above[path := Directory]
  }

  /** Nothing but folders on the way. */
  predicate Walkable(site: Site, path: Path) {
    forall k :: 0 < k <= |path| && path[..k] in site ==> site[path[..k]].Directory?
  }

  function SiteOf(web: Option<Node>): Site {
    if web.Some? && web.value.Shell? then web.value.site else map[]
  }

  /** A folder can be there, with all that are above it. */
  predicate Passable(web: Option<Node>, path: Path) {
    (web.Some? ==> web.value.Shell?) && Walkable(SiteOf(web), path)
  }

  /** No folder is where a file should be; the empty path is the staging name itself. */
  predicate Writable(web: Option<Node>, path: Path) {
    if path == [] then web.Some? ==> web.value.File? else !IsDirectory(SiteOf(web), path)
  }

  function Written(web: Option<Node>, path: Path, image: Image): Node {
    if path == [] then File(image) else Shell(SiteOf(web)[path := Data(image)])
  }

  /** A web member can be put in place: `web` is what stands under the staging name by then. */
  predicate Fits(web: Option<Node>, x: Member)
    requires x.Web().Some?
  {
    var path := x.Web().value;
    && ".." !in path
    && match x.kind
       case Special => false
       case FolderMember => Passable(web, path)
       case PlainFile => (path != [] ==> Passable(web, path[..|path| - 1])) && Writable(web, path)
  }

  /** Putting it there. A file of the same path is replaced. */
  function Added(web: Option<Node>, x: Member): Node
    requires x.Web().Some?
  {
    var path := x.Web().value;
    if x.kind.FolderMember? then Shell(WithFolders(SiteOf(web), path))
    else if path == [] then File(x.content)
    else Shell(WithFolders(SiteOf(web), path[..|path| - 1])[path := Data(x.content)])
  }

  /** What stands under the staging name after the first `n` members. */
  function WebAfter(start: Option<Node>, members: seq<Member>, n: nat): Option<Node>
    requires n <= |members|
  {
    if n == 0 then start
    else if members[n - 1].Web().Some? then Some(Added(WebAfter(start, members, n - 1), members[n - 1]))
    else WebAfter(start, members, n - 1)
  }

  predicate AllFit(start: Option<Node>, members: seq<Member>, n: nat)
    requires n <= |members|
  {
    forall i :: 0 <= i < n && members[i].Web().Some? ==> Fits(WebAfter(start, members, i), members[i])
  }

  // ------------------------------------------------------------ what fits, by the members alone

  predicate WellFormed(x: Member) {
    x.Web().Some? ==> ".." !in x.Web().value && !x.kind.Special?
  }

  /** One is a file where the other needs a folder. */
  predicate Clash(x: Member, y: Member) {
    && x.Web().Some? && y.Web().Some?
    && (|| (x.kind.PlainFile? && x.Web().value < y.Web().value)
        || (y.kind.PlainFile? && y.Web().value < x.Web().value)
        || (x.Web() == y.Web() && x.kind != y.kind))
  }

  predicate Peaceful(members: seq<Member>, n: nat)
    requires n <= |members|
  {
    && (forall i :: 0 <= i < n ==> WellFormed(members[i]))
    && (forall i, j :: 0 <= i < j < n ==> !Clash(members[i], members[j]))
  }

  predicate IsWeb(members: seq<Member>, i: nat) { i < |members| && members[i].Web().Some? }

  predicate IsWebFile(members: seq<Member>, i: nat, path: Path) {
    i < |members| && members[i].Web() == Some(path) && members[i].kind.PlainFile?
  }

  /** The staged folder, read off the members: a path is there if it is, or is above, a member's path; it is a file
      if a plain member has it, and then it holds what the last such member holds. */
  ghost predicate Mirrors(web: Option<Node>, members: seq<Member>, n: nat)
    requires n <= |members|
  {
    && (web.None? <==> forall i :: 0 <= i < n ==> !IsWeb(members, i))
    && (web.Some? ==> web.value.File? || web.value.Shell?)
    && (web.Some? && web.value.File? ==>
          && (forall i :: 0 <= i < n && IsWeb(members, i) ==> IsWebFile(members, i, []))
          && LastHas(members, n, [], web.value.image))
    && (web.Some? && web.value.Shell? ==>
          && (forall i :: 0 <= i < n ==> !IsWebFile(members, i, []))
          && [] !in SiteOf(web)
          && (forall path :: path in SiteOf(web) ==> Holds(SiteOf(web)[path], members, n, path))
          && (forall i :: 0 <= i < n && IsWeb(members, i) ==> Reached(SiteOf(web), members[i])))
  }

  /** The last of the first `n` members that is a plain file with this path. */
  ghost predicate LastHas(members: seq<Member>, n: nat, path: Path, image: Image)
    requires n <= |members|
  {
    exists i :: 0 <= i < n && IsWebFile(members, i, path) && members[i].content == image
                && forall j :: i < j < n ==> !IsWebFile(members, j, path)
  }

  ghost predicate Holds(e: Entry, members: seq<Member>, n: nat, path: Path)
    requires n <= |members|
  {
    match e
    case Data(image) => LastHas(members, n, path, image)
    case Directory =>
      && (forall i :: 0 <= i < n ==> !IsWebFile(members, i, path))
      && exists i :: 0 <= i < n && IsWeb(members, i) && path <= members[i].Web().value
  }

  predicate Reached(site: Site, x: Member)
    requires x.Web().Some?
  {
    forall k :: 0 < k <= |x.Web().value| ==> x.Web().value[..k] in site
  }

  lemma PrefixOfLonger(q: Path, path: Path)
    requires path != []
    ensures q <= path <==> q <= path[..|path| - 1] || q == path
  {
    var up := path[..|path| - 1];
    assert path == up + [path[|path| - 1]];
    if q <= path && |q| < |path| {
      assert q == path[..|q|] == up[..|q|];
    }
  }

  lemma {:induction false} WithFoldersIs(site: Site, path: Path, q: Path)
    ensures q in WithFolders(site, path) <==> q in site || (q != [] && q <= path)
    ensures q in WithFolders(site, path) ==>
              WithFolders(site, path)[q] == if q in site then site[q] else Directory
  {
    if path != [] {
      WithFoldersIs(site, path[..|path| - 1], q);
      WithFoldersIs(site, path[..|path| - 1], path);
      PrefixOfLonger(q, path);
    }
  }

  lemma FolderKept(site: Site, path: Path)
    requires path != []
    ensures IsDirectory(WithFolders(site, path[..|path| - 1]), path) <==> IsDirectory(site, path)
  {
    WithFoldersIs(site, path[..|path| - 1], path);
  }

  lemma FileStands(web: Option<Node>, members: seq<Member>, n: nat, i: nat, path: Path)
    requires n <= |members| && i < n && Mirrors(web, members, n) && web.Some? && web.value.Shell?
    requires IsWebFile(members, i, path)
    ensures path != [] && path in SiteOf(web) && SiteOf(web)[path].Data?
  {
    assert path != [];
    assert IsWeb(members, i);
    assert path[..|path|] == path;
    assert Reached(SiteOf(web), members[i]);
  }

  lemma FileFound(site: Site, members: seq<Member>, n: nat, path: Path) returns (i: nat)
    requires n <= |members| && path in site && site[path].Data? && Holds(site[path], members, n, path)
    ensures i < n && IsWebFile(members, i, path)
  {
    i :| 0 <= i < n && IsWebFile(members, i, path);
  }

  lemma FolderFound(site: Site, members: seq<Member>, n: nat, path: Path) returns (i: nat)
    requires n <= |members| && path in site && site[path].Directory? && Holds(site[path], members, n, path)
    ensures i < n && IsWeb(members, i) && path <= members[i].Web().value && !IsWebFile(members, i, path)
  {
    i :| 0 <= i < n && IsWeb(members, i) && path <= members[i].Web().value;
  }

  lemma SameOrBelow(a: Path, b: Path)
    requires a <= b
    ensures a < b || a == b
  {
  }

  lemma PathHolds(web: Option<Node>, members: seq<Member>, n: nat, path: Path)
    requires n <= |members| && Mirrors(web, members, n) && web.Some? && web.value.Shell? && path in SiteOf(web)
    ensures Holds(SiteOf(web)[path], members, n, path)
  {
  }

  lemma PrefixStands(web: Option<Node>, members: seq<Member>, n: nat, i: nat, path: Path)
    requires n <= |members| && i < n && Mirrors(web, members, n) && web.Some? && web.value.Shell?
    requires IsWeb(members, i) && path <= members[i].Web().value && path != []
    ensures path in SiteOf(web) && Holds(SiteOf(web)[path], members, n, path)
  {
    assert Reached(SiteOf(web), members[i]);
    assert members[i].Web().value[..|path|] == path;
  }

  /** In a folder, a member that clashes with an earlier one does not fit. */
  lemma FileBlocks(web: Option<Node>, members: seq<Member>, n: nat, i: nat, path: Path)
    requires n < |members| && i < n && Mirrors(web, members, n) && web.Some? && web.value.Shell?
    requires members[n].Web().Some? && IsWebFile(members, i, path) && path <= members[n].Web().value
    requires path != members[n].Web().value || !members[n].kind.PlainFile?
    ensures !Fits(web, members[n])
  {
    var whole := members[n].Web().value;
    FileStands(web, members, n, i, path);
    assert path == whole[..|path|];
    assert |path| < |whole| ==> whole[..|whole| - 1][..|path|] == path;
  }

  lemma FolderBlocks(web: Option<Node>, members: seq<Member>, n: nat, i: nat)
    requires n < |members| && i < n && Mirrors(web, members, n) && Peaceful(members, n) && web.Some? && web.value.Shell?
    requires members[n].Web().Some? && members[n].kind.PlainFile? && IsWeb(members, i)
    requires members[n].Web().value <= members[i].Web().value && !IsWebFile(members, i, members[n].Web().value)
    ensures !Fits(web, members[n])
  {
    hide Mirrors, Peaceful, Walkable, Holds, Split, Parts;
    var path := members[n].Web().value;
    if path != [] {
      PrefixStands(web, members, n, i, path);
      if SiteOf(web)[path].Data? {
        var j := FileFound(SiteOf(web), members, n, path);
        SameOrBelow(path, members[i].Web().value);
        assert Clash(members[i], members[j]);
        NoClash(members, n, i, j);
      }
    }
  }

  lemma NoClash(members: seq<Member>, n: nat, i: nat, j: nat)
    requires n <= |members| && Peaceful(members, n) && i < n && j < n && i != j
    ensures !Clash(members[i], members[j])
  {
    assert if i < j then !Clash(members[i], members[j]) else !Clash(members[j], members[i]);
  }

  lemma SpecialDoesNotFit(web: Option<Node>, x: Member)
    requires x.Web().Some? && x.kind.Special?
    ensures !Fits(web, x)
  {
  }

  lemma ClashingDoesNotFit(web: Option<Node>, members: seq<Member>, n: nat, i: nat)
    requires n < |members| && i < n && Mirrors(web, members, n) && Peaceful(members, n)
    requires web.Some? && web.value.Shell? && Clash(members[i], members[n])
    ensures !Fits(web, members[n])
  {
    hide Mirrors, Peaceful, Fits;
    var x, y := members[n], members[i];
    if y.kind.PlainFile? && y.Web().value <= x.Web().value {
      FileBlocks(web, members, n, i, y.Web().value);
    } else if x.kind.PlainFile? {
      FolderBlocks(web, members, n, i);
    } else {
      WellFormedAt(members, n, i);
      SpecialDoesNotFit(web, x);
    }
  }

  lemma WellFormedAt(members: seq<Member>, n: nat, i: nat)
    requires n <= |members| && Peaceful(members, n) && i < n
    ensures WellFormed(members[i])
  {
  }

  /** In a folder, a member that clashes with none before it fits. */
  lemma PeacefulFits(web: Option<Node>, members: seq<Member>, n: nat)
    requires n < |members| && Mirrors(web, members, n) && Peaceful(members, n) && members[n].Web().Some?
    requires web.Some? && web.value.Shell?
    requires WellFormed(members[n]) && forall i :: 0 <= i < n ==> !Clash(members[i], members[n])
    ensures Fits(web, members[n])
  {
    hide Mirrors, Peaceful, Split, Parts;
    var x := members[n];
    var path := x.Web().value;
    var upTo := if x.kind.PlainFile? && path != [] then path[..|path| - 1] else path;
    forall k | 0 < k <= |upTo| && upTo[..k] in SiteOf(web)
      ensures SiteOf(web)[upTo[..k]].Directory?
    {
      assert upTo[..k] == path[..k];
      if SiteOf(web)[upTo[..k]].Data? {
        PathHolds(web, members, n, path[..k]);
        var i := FileFound(SiteOf(web), members, n, path[..k]);
        SameOrBelow(path[..k], path);
      }
    }
    if x.kind.PlainFile? && path != [] && IsDirectory(SiteOf(web), path) {
      PathHolds(web, members, n, path);
      var i := FolderFound(SiteOf(web), members, n, path);
      WellFormedAt(members, n, i);
      SameOrBelow(path, members[i].Web().value);
    }
    if x.kind.PlainFile? && path == [] {
      FolderInTheWay(web, members, n);
    }
  }

  /** A plain file called `web` clashes with whatever made the folder. */
  lemma FolderInTheWay(web: Option<Node>, members: seq<Member>, n: nat)
    requires n < |members| && Mirrors(web, members, n) && web.Some? && web.value.Shell?
    requires IsWebFile(members, n, [])
    ensures exists i :: 0 <= i < n && Clash(members[i], members[n])
  {
    hide Split, Parts;
    var i :| 0 <= i < n && IsWeb(members, i);
    var path := members[i].Web().value;
    assert !IsWebFile(members, i, []);
    if path == [] {
      assert members[i].Web() == members[n].Web();
    } else {
      assert [] < path;
    }
    assert Clash(members[i], members[n]);
  }

  lemma OnlyFilesFit(web: Option<Node>, members: seq<Member>, n: nat)
    requires n < |members| && Mirrors(web, members, n) && members[n].Web().Some? && web.Some? && web.value.File?
    ensures Fits(web, members[n]) <==> WellFormed(members[n]) && forall i :: 0 <= i < n ==> !Clash(members[i], members[n])
  {
    hide Split, Parts;
    var x := members[n];
    var path := x.Web().value;
    var i :| 0 <= i < n && IsWebFile(members, i, []);
    if path != [] {
      assert [] < path;
      assert Clash(members[i], x);
    } else if !x.kind.PlainFile? {
      assert members[i].Web() == x.Web();
      assert Clash(members[i], x);
    } else {
      forall j | 0 <= j < n ensures !Clash(members[j], x) {
        assert IsWeb(members, j) ==> IsWebFile(members, j, []);
      }
    }
  }

  lemma FitsExactly(web: Option<Node>, members: seq<Member>, n: nat)
    requires n < |members| && Mirrors(web, members, n) && Peaceful(members, n) && members[n].Web().Some?
    ensures Fits(web, members[n]) <==> WellFormed(members[n]) && forall i :: 0 <= i < n ==> !Clash(members[i], members[n])
  {
    if web.Some? && web.value.Shell? {
      if Fits(web, members[n]) {
        forall i | 0 <= i < n ensures !Clash(members[i], members[n]) {
          if Clash(members[i], members[n]) {
            ClashingDoesNotFit(web, members, n, i);
          }
        }
      } else if WellFormed(members[n]) && forall i :: 0 <= i < n ==> !Clash(members[i], members[n]) {
        PeacefulFits(web, members, n);
      }
    } else if web.Some? {
      OnlyFilesFit(web, members, n);
    } else {
      forall i | 0 <= i < n ensures !Clash(members[i], members[n]) {
        assert !IsWeb(members, i);
      }
    }
  }

  // ------------------------------------------------------------ one member more

  lemma LastStays(members: seq<Member>, n: nat, path: Path, image: Image)
    requires n < |members| && LastHas(members, n, path, image) && !IsWebFile(members, n, path)
    ensures LastHas(members, n + 1, path, image)
  {
  }

  lemma HoldsOn(e: Entry, members: seq<Member>, n: nat, path: Path)
    requires n < |members| && Holds(e, members, n, path) && !IsWebFile(members, n, path)
    ensures Holds(e, members, n + 1, path)
  {
    hide IsWebFile, IsWeb;
    if e.Data? {
      LastStays(members, n, path, e.image);
    }
  }

  /** A folder that was made on the way. */
  lemma NewFolderHolds(web: Option<Node>, members: seq<Member>, n: nat, path: Path)
    requires n < |members| && Mirrors(web, members, n) && IsWeb(members, n) && (web.Some? ==> web.value.Shell?)
    requires path !in SiteOf(web) && path != [] && path <= members[n].Web().value && !IsWebFile(members, n, path)
    ensures Holds(Directory, members, n + 1, path)
  {
    hide Mirrors, Split, Parts;
    forall i | 0 <= i < n
      ensures !IsWebFile(members, i, path)
    {
      if IsWebFile(members, i, path) {
        SomethingStands(web, members, n, i);
        FileStands(web, members, n, i, path);
      }
    }
  }

  lemma SomethingStands(web: Option<Node>, members: seq<Member>, n: nat, i: nat)
    requires n <= |members| && Mirrors(web, members, n) && i < n && IsWeb(members, i)
    ensures web.Some?
  {
  }

  lemma NoPlainWeb(web: Option<Node>, members: seq<Member>, n: nat)
    requires n <= |members| && Mirrors(web, members, n) && (web.Some? ==> web.value.Shell?)
    ensures forall i :: 0 <= i < n ==> !IsWebFile(members, i, [])
    ensures forall i :: 0 <= i < n && IsWeb(members, i) ==> Reached(SiteOf(web), members[i])
    ensures [] !in SiteOf(web)
  {
    if web.None? {
      assert forall i :: 0 <= i < n && IsWebFile(members, i, []) ==> IsWeb(members, i);
    }
  }

  lemma ReachedMore(site: Site, more: Site, x: Member)
    requires x.Web().Some? && Reached(site, x) && site.Keys <= more.Keys
    ensures Reached(more, x)
  {
  }

  lemma ShellMirrors(site: Site, members: seq<Member>, n: nat)
    requires n <= |members| && [] !in site
    requires exists i :: 0 <= i < n && IsWeb(members, i)
    requires forall i :: 0 <= i < n ==> !IsWebFile(members, i, [])
    requires forall path :: path in site ==> Holds(site[path], members, n, path)
    requires forall i :: 0 <= i < n && IsWeb(members, i) ==> Reached(site, members[i])
    ensures Mirrors(Some(Shell(site)), members, n)
  {
    hide Holds, Reached;
  }

  /** A member that is put into the folder. */
  lemma MirrorShell(web: Option<Node>, members: seq<Member>, n: nat, folders: Path, site: Site)
    requires n < |members| && Mirrors(web, members, n) && IsWeb(members, n) && (web.Some? ==> web.value.Shell?)
    requires !IsWebFile(members, n, [])
    requires var path := members[n].Web().value;
             if members[n].kind.PlainFile?
             then path != [] && folders == path[..|path| - 1] && site == WithFolders(SiteOf(web), folders)[path := Data(members[n].content)]
             else folders == path && site == WithFolders(SiteOf(web), path)
    ensures Mirrors(Some(Shell(site)), members, n + 1)
  {
    hide Mirrors, Split, Parts, WithFolders, Holds, Reached;
    var x := members[n];
    var path := x.Web().value;
    NoPlainWeb(web, members, n);
    forall q
      ensures q in WithFolders(SiteOf(web), folders) <==> q in SiteOf(web) || (q != [] && q <= folders)
      ensures q in WithFolders(SiteOf(web), folders) ==>
                WithFolders(SiteOf(web), folders)[q] == if q in SiteOf(web) then SiteOf(web)[q] else Directory
    {
      WithFoldersIs(SiteOf(web), folders, q);
    }
    forall q | q in site
      ensures Holds(site[q], members, n + 1, q)
    {
      if IsWebFile(members, n, q) {
        NewFileHolds(members, n, q);
      } else if q in SiteOf(web) {
        PathHolds(web, members, n, q);
        HoldsOn(site[q], members, n, q);
      } else {
        assert q <= path by { if q <= folders { assert q == folders[..|q|] == path[..|q|]; } }
        NewFolderHolds(web, members, n, q);
      }
    }
    forall i | 0 <= i < n + 1 && IsWeb(members, i)
      ensures Reached(site, members[i])
    {
      if i < n {
        ReachedMore(SiteOf(web), site, members[i]);
      } else {
        NewReached(site, x, folders);
      }
    }
    ShellMirrors(site, members, n + 1);
  }

  lemma NewFileHolds(members: seq<Member>, n: nat, path: Path)
    requires n < |members| && IsWebFile(members, n, path)
    ensures Holds(Data(members[n].content), members, n + 1, path)
  {
  }

  lemma NewReached(site: Site, x: Member, folders: Path)
    requires x.Web().Some?
    requires forall q :: q != [] && q <= folders ==> q in site
    requires folders == x.Web().value || (x.Web().value != [] && folders == x.Web().value[..|x.Web().value| - 1] && x.Web().value in site)
    ensures Reached(site, x)
  {
    var path := x.Web().value;
    forall k | 0 < k <= |path|
      ensures path[..k] in site
    {
      if k <= |folders| {
        assert path[..k] == folders[..k] <= folders;
      } else {
        assert path[..k] == path;
      }
    }
  }

  lemma MirrorFile(web: Option<Node>, members: seq<Member>, n: nat)
    requires n < |members| && Mirrors(web, members, n) && IsWebFile(members, n, []) && (web.Some? ==> web.value.File?)
    ensures Mirrors(Some(File(members[n].content)), members, n + 1)
  {
    hide Split, Parts;
    assert IsWeb(members, n);
    assert LastHas(members, n + 1, [], members[n].content);
  }

  lemma MirrorSkip(web: Option<Node>, members: seq<Member>, n: nat)
    requires n < |members| && Mirrors(web, members, n) && !IsWeb(members, n)
    ensures Mirrors(web, members, n + 1)
  {
    hide Split, Parts, Reached;
    assert forall path :: !IsWebFile(members, n, path);
    if web.Some? && web.value.Shell? {
      forall path | path in SiteOf(web)
        ensures Holds(SiteOf(web)[path], members, n + 1, path)
      {
        HoldsOn(SiteOf(web)[path], members, n, path);
      }
    } else if web.Some? {
      LastStays(members, n, [], web.value.image);
    }
  }

  lemma MirrorsNext(web: Option<Node>, members: seq<Member>, n: nat)
    requires n < |members| && Mirrors(web, members, n) && IsWeb(members, n) && Fits(web, members[n])
    ensures Mirrors(Some(Added(web, members[n])), members, n + 1)
  {
    hide Mirrors, Split, Parts, Walkable, WithFolders;
    var x := members[n];
    var path := x.Web().value;
    if x.kind.FolderMember? {
      MirrorShell(web, members, n, path, WithFolders(SiteOf(web), path));
    } else if path == [] {
      MirrorFile(web, members, n);
    } else {
      var folders := path[..|path| - 1];
      MirrorShell(web, members, n, folders, WithFolders(SiteOf(web), folders)[path := Data(x.content)]);
    }
  }

  /** Main result: starting with nothing, all web members of an archive can be put in place if and only if each
      is a file or folder whose path goes down only, and no file's path is above, or is that of a folder, for
      any two of them, in whatever order they come. Then the result can be read off the members. */
  lemma {:induction false} UnpacksExactly(members: seq<Member>, n: nat)
    requires n <= |members|
    ensures AllFit(None, members, n) <==> Peaceful(members, n)
    ensures AllFit(None, members, n) ==> Mirrors(WebAfter(None, members, n), members, n)
  {
    hide Mirrors, Fits, Added, WellFormed, Clash;
    if n == 0 {
      NothingMirrors(members);
    } else {
      UnpacksExactly(members, n - 1);
      if AllFit(None, members, n - 1) {
        var web := WebAfter(None, members, n - 1);
        if members[n - 1].Web().Some? {
          FitsExactly(web, members, n - 1);
          if Fits(web, members[n - 1]) {
            MirrorsNext(web, members, n - 1);
          }
        } else {
          MirrorSkip(web, members, n - 1);
          OthersDoNotClash(members, n - 1);
        }
      }
    }
  }

  lemma NothingMirrors(members: seq<Member>)
    ensures Mirrors(None, members, 0)
  {
  }

  lemma OthersDoNotClash(members: seq<Member>, n: nat)
    requires n < |members| && members[n].Web().None?
    ensures WellFormed(members[n]) && forall i :: 0 <= i < n ==> !Clash(members[i], members[n])
  {
  }
}
