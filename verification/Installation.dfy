/** What stands beside the installed program, and what `install_web` (crates/komo/src/update.rs:184-229) does to
    it: the staged web folder becomes a generation, the link `web` is pointed at it, and what the link led to
    before is cleared away if the link's text starts with `komo-web`.

    The test is on the text. What is removed is what the text leads to, which need not be below `komo-web`. */
module Installation {
  import opened Text

  type Image = string

  /** Names one below the other. In a link's text, `..` goes up and `/` starts again at the top. */
  type Path = seq<string>

  const BINARY := "komo"
  const WEB := "web"
  const WEB_ROOT := "komo-web"
  const PLUGIN_ROOT := "komo-plugins"

  function Plugins(): (names: set<string>)
    ensures BINARY !in names
  {
    {"komo-channel-feishu", "komo-channel-telegram", "komo-channel-wechat"}
  }

  type Contents = map<string, Image>

  datatype Entry = Directory | Data(image: Image)

  /** A folder of web files: everything below it, by path. */
  type Site = map<Path, Entry>

  predicate IsDirectory(site: Site, path: Path) { path in site && site[path].Directory? }

  /** Names beside the program. `Archive`, `Staged…` and the `…New` links carry the updater's process number. */
  datatype Place =
    | Dest | Archive | Staged | StagedPlugins | StagedWeb
    | PluginSet(generation: string) | PluginsNew(version: string) | PluginsOf(version: string)
    | WebSet(generation: string) | WebNew | WebLive

  datatype Node = File(image: Image) | Folder(contents: Contents) | Shell(site: Site) | Link(text: Path)

  type Nodes = map<Place, Node>

  /** The folder the program is in, and the updater's process number. */
  datatype Home = Home(path: Path, stamp: string)

  function Below(home: Home, p: Place): Path {
    match p
    case Dest => [BINARY]
    case Archive => [".komo-" + home.stamp + ".tar.gz"]
    case Staged => [".komo-" + home.stamp + ".new"]
    case StagedPlugins => [".komo-" + home.stamp + ".plugins"]
    case StagedWeb => [".komo-" + home.stamp + ".web"]
    case PluginSet(g) => [PLUGIN_ROOT, g]
    case PluginsNew(v) => [PLUGIN_ROOT, v + ".new-" + home.stamp]
    case PluginsOf(v) => [PLUGIN_ROOT, v]
    case WebSet(g) => [WEB_ROOT, g]
    case WebNew => [WEB + ".new-" + home.stamp]
    case WebLive => [WEB]
  }

  function PathOf(home: Home, p: Place): Path { home.path + Below(home, p) }

  /** Two different things never stand in one place. (Generations and versions are kept apart by what names them.) */
  lemma PlacesAreApart(home: Home, p: Place, q: Place)
    requires !p.PluginSet? && !p.PluginsNew? && !p.PluginsOf? && !q.PluginSet? && !q.PluginsNew? && !q.PluginsOf?
    ensures PathOf(home, p) == PathOf(home, q) ==> p == q
  {
    if PathOf(home, p) == PathOf(home, q) {
      assert PathOf(home, p)[|home.path|..] == Below(home, p) && PathOf(home, q)[|home.path|..] == Below(home, q);
      assert Below(home, p)[0] == Below(home, q)[0] && (p.WebSet? <==> q.WebSet?);
      if p.WebSet? {
        assert Below(home, p)[1] == Below(home, q)[1];
      } else {
        FirstNames(home, p);
        FirstNames(home, q);
        ExtensionsDiffer(home.stamp, Extension(p), Extension(q));
      }
    }
  }

  function Extension(p: Place): string {
    match p
    case Archive => ".tar.gz"
    case Staged => ".new"
    case StagedPlugins => ".plugins"
    case StagedWeb => ".web"
    case _ => ""
  }

  lemma FirstNames(home: Home, p: Place)
    requires p.Dest? || p.Archive? || p.Staged? || p.StagedPlugins? || p.StagedWeb? || p.WebNew? || p.WebLive?
    ensures p.Dest? <==> Below(home, p)[0] == BINARY
    ensures p.WebLive? <==> Below(home, p)[0] == WEB
    ensures p.WebNew? ==> Below(home, p)[0] == WEB + ".new-" + home.stamp
    ensures !p.Dest? && !p.WebLive? && !p.WebNew? ==> Below(home, p)[0] == ".komo-" + home.stamp + Extension(p) && Extension(p) != ""
    ensures Below(home, p)[0][0] == if p.Dest? then 'k' else if p.WebLive? || p.WebNew? then 'w' else '.'
  {
    assert |WEB| == 3 && |WEB + ".new-" + home.stamp| > 3;
  }

  lemma ExtensionsDiffer(stamp: string, a: string, b: string)
    ensures ".komo-" + stamp + a == ".komo-" + stamp + b ==> a == b
  {
    var front := ".komo-" + stamp;
    if front + a == front + b {
      assert (front + a)[|front|..] == a && (front + b)[|front|..] == b;
    }
  }

  /** The four programs of a release. */
  lemma FourPrograms()
    ensures Plugins() + {BINARY} == {"komo", "komo-channel-feishu", "komo-channel-telegram", "komo-channel-wechat"}
  {
  }

  predicate Name(s: string) { s != ".." && s != "/" }

  /** Where a text leads, from a folder. That the folders it passes through are there is left to the disk: an
      operation on a path that cannot be walked is one that fails. */
  function Resolve(at: Path, text: Path): Path
    decreases text
  {
    if text == [] then at
    else if text[0] == "/" then Resolve([], text[1..])
    else if text[0] == ".." then Resolve(if at == [] then [] else at[..|at| - 1], text[1..])
    else Resolve(at + [text[0]], text[1..])
  }

  // ------------------------------------------------------------ what a program finds

  predicate SameAt(before: Nodes, after: Nodes, p: Place) {
    (p in before <==> p in after) && (p in before ==> after[p] == before[p])
  }

  predicate HasFolder(nodes: Nodes, p: Place) { p in nodes && (nodes[p].Folder? || nodes[p].Shell?) }

  predicate HasShell(nodes: Nodes, p: Place) { p in nodes && nodes[p].Shell? }

  /** The plugins that a program of this version finds. */
  function PluginsFor(nodes: Nodes, version: string): Option<Contents> {
    if PluginsOf(version) in nodes && nodes[PluginsOf(version)].Link? && |nodes[PluginsOf(version)].text| == 1
       && PluginSet(nodes[PluginsOf(version)].text[0]) in nodes && nodes[PluginSet(nodes[PluginsOf(version)].text[0])].Folder?
    then Some(nodes[PluginSet(nodes[PluginsOf(version)].text[0])].contents) else None
  }

  /** The generation that the plugins of this version are in. */
  function PluginsIn(nodes: Nodes, version: string): string
    requires PluginsFor(nodes, version).Some?
  {
    nodes[PluginsOf(version)].text[0]
  }

  /** The generation that a text leads to. */
  function Generation(home: Home, text: Path): Option<string> {
    var r := Resolve(home.path, text);
    if |r| == |home.path| + 2 && r[..|home.path| + 1] == home.path + [WEB_ROOT] then Some(r[|home.path| + 1]) else None
  }

  /** The web shell that the gateway finds. */
  function WebFor(home: Home, nodes: Nodes): Option<Site> {
    if WebLive in nodes && nodes[WebLive].Link? && Generation(home, nodes[WebLive].text).Some?
       && HasShell(nodes, WebSet(Generation(home, nodes[WebLive].text).value))
    then Some(nodes[WebSet(Generation(home, nodes[WebLive].text).value)].site) else None
  }

  // ------------------------------------------------------------ clearing away

  function Without(site: Site, path: Path): Site {
    if IsDirectory(site, path) then map q | q in site && !(path <= q) :: site[q] else site
  }

  /** `remove_dir_all`: what it leaves of the node at one path. It takes a folder with all below it, or a
      link; it refuses a file. */
  function Kept(n: Node, at: Path, gone: Path): Option<Node> {
    if gone <= at then if gone == at && n.File? then Some(n) else None
    else if at <= gone && n.Shell? then Some(Shell(Without(n.site, gone[|at|..])))
    else Some(n)
  }

  function Removed(home: Home, nodes: Nodes, gone: Path): Nodes {
    map p | p in nodes && Kept(nodes[p], PathOf(home, p), gone).Some? :: Kept(nodes[p], PathOf(home, p), gone).value
  }

  /** The path that is cleared away after a new shell is in place, if any: what the link `web` led to. */
  function Doomed(home: Home, nodes: Nodes): Option<Path> {
    if WebLive in nodes && nodes[WebLive].Link? && nodes[WebLive].text != [] && nodes[WebLive].text[0] == WEB_ROOT
    then Some(Resolve(home.path, nodes[WebLive].text)) else None
  }

  /** A node at this place would come through the clearing unchanged. */
  predicate Spared(home: Home, nodes: Nodes, p: Place, n: Node) {
    Doomed(home, nodes).Some? ==> Kept(n, PathOf(home, p), Doomed(home, nodes).value) == Some(n)
  }

  predicate SparedAt(home: Home, nodes: Nodes, p: Place) { p in nodes ==> Spared(home, nodes, p, nodes[p]) }

  /** The clearing takes the folder of the program, or one above it. */
  predicate TakesAll(home: Home, nodes: Nodes) {
    Doomed(home, nodes).Some? && Doomed(home, nodes).value <= home.path
  }

  lemma SparedMeans(home: Home, nodes: Nodes, p: Place, n: Node)
    ensures Spared(home, nodes, p, n) <==>
            match Doomed(home, nodes)
            case None => true
            case Some(gone) =>
              var at := PathOf(home, p);
              && !(gone < at) && (gone == at ==> n.File?)
              && (at < gone && n.Shell? ==> !IsDirectory(n.site, gone[|at|..]))
  {
    match Doomed(home, nodes) {
      case None =>
      case Some(gone) =>
        var at := PathOf(home, p);
        if at < gone && n.Shell? && IsDirectory(n.site, gone[|at|..]) {
          assert gone[|at|..] !in Without(n.site, gone[|at|..]);
        }
    }
  }

  /** A file beside the program goes exactly if the whole folder goes. */
  lemma FileSpared(home: Home, nodes: Nodes, p: Place, image: Image)
    requires |Below(home, p)| == 1
    ensures Spared(home, nodes, p, File(image)) <==> !TakesAll(home, nodes)
  {
    if Doomed(home, nodes).Some? {
      var gone, at := Doomed(home, nodes).value, PathOf(home, p);
      assert at[..|home.path|] == home.path;
      if gone < at {
        assert gone == at[..|gone|] == home.path[..|gone|];
      }
    }
  }

  /** Where the plugins of a version are kept: what would be lost with them. */
  predicate PluginsGo(home: Home, nodes: Nodes, version: string, generation: string) {
    match Doomed(home, nodes)
    case None => false
    case Some(gone) =>
      || gone <= home.path + [PLUGIN_ROOT]
      || gone == home.path + [PLUGIN_ROOT, version] || gone == home.path + [PLUGIN_ROOT, generation]
  }

  lemma PluginsSpared(home: Home, nodes: Nodes, version: string, generation: string, plugins: Contents)
    ensures !PluginsGo(home, nodes, version, generation) <==>
            && Spared(home, nodes, PluginsOf(version), Link([generation]))
            && Spared(home, nodes, PluginSet(generation), Folder(plugins))
  {
    SparedMeans(home, nodes, PluginsOf(version), Link([generation]));
    SparedMeans(home, nodes, PluginSet(generation), Folder(plugins));
    if Doomed(home, nodes).Some? {
      var gone := Doomed(home, nodes).value;
      ShorterPrefix(home.path, PLUGIN_ROOT, version, gone);
      ShorterPrefix(home.path, PLUGIN_ROOT, generation, gone);
    }
  }

  lemma ShorterPrefix(path: Path, a: string, b: string, gone: Path)
    ensures gone < path + [a, b] <==> gone <= path + [a]
  {
    assert path + [a, b] == path + [a] + [b];
    if gone < path + [a, b] {
      assert gone == (path + [a, b])[..|gone|] == (path + [a])[..|gone|];
    }
  }

  // ------------------------------------------------------------ a new shell

  /** The staged folder is a generation, and the link leads to it. */
  function Linked(nodes: Nodes, generation: string): Nodes
    requires StagedWeb in nodes
  {
    (nodes[WebSet(generation) := nodes[StagedWeb]] - {StagedWeb})[WebLive := Link([WEB_ROOT, generation])]
  }

  /** What `install_web` makes of the disk when nothing goes wrong. */
  function Shelled(home: Home, nodes: Nodes, generation: string): Nodes
    requires StagedWeb in nodes
  {
    match Doomed(home, nodes)
    case None => Linked(nodes, generation)
    case Some(gone) => Removed(home, Linked(nodes, generation), gone)
  }

  /** Main result: the test on the text. A link whose text does not start with `komo-web`, or no link, is not
      followed, and a new shell changes nothing but its own; any other is. */
  lemma FollowedExactly(home: Home, nodes: Nodes, generation: string)
    requires StagedWeb in nodes
    ensures Doomed(home, nodes).Some? <==>
            WebLive in nodes && nodes[WebLive].Link? && nodes[WebLive].text != [] && nodes[WebLive].text[0] == "komo-web"
    ensures Doomed(home, nodes).None? ==> Shelled(home, nodes, generation) == Linked(nodes, generation)
    ensures Linked(nodes, generation).Keys == nodes.Keys - {StagedWeb} + {WebSet(generation), WebLive}
    ensures forall p :: p in nodes && p != StagedWeb && p != WebLive && p != WebSet(generation) ==> Linked(nodes, generation)[p] == nodes[p]
    ensures Linked(nodes, generation)[WebLive] == Link(["komo-web", generation])
    ensures WebSet(generation) != StagedWeb ==> Linked(nodes, generation)[WebSet(generation)] == nodes[StagedWeb]
  {
    hide Resolve;
  }

  lemma TwoNames(at: Path, a: string, b: string)
    requires Name(a) && Name(b)
    ensures Resolve(at, [a, b]) == at + [a, b]
  {
    assert [a, b][1..] == [b];
    assert at + [a] + [b] == at + [a, b];
    assert Resolve(at + [a], [b]) == Resolve(at + [a] + [b], [b][1..]);
  }

  lemma OwnLink(home: Home, generation: string)
    requires Name(generation)
    ensures Generation(home, [WEB_ROOT, generation]) == Some(generation)
  {
    TwoNames(home.path, WEB_ROOT, generation);
    assert (home.path + [WEB_ROOT, generation])[..|home.path| + 1] == home.path + [WEB_ROOT];
  }

  /** What the link led to is none of the link itself, the new generation, a folder with either of them below it,
      or a folder in the new generation. */
  predicate ShellSpared(home: Home, nodes: Nodes, generation: string, site: Site) {
    match Doomed(home, nodes)
    case None => true
    case Some(gone) =>
      var own := home.path + [WEB_ROOT, generation];
      && !(gone <= home.path + [WEB]) && !(gone <= own)
      && !(own < gone && IsDirectory(site, gone[|own|..]))
  }

  lemma ShellSparedMeans(home: Home, nodes: Nodes, generation: string, site: Site)
    ensures ShellSpared(home, nodes, generation, site) <==>
            && Spared(home, nodes, WebLive, Link([WEB_ROOT, generation]))
            && Spared(home, nodes, WebSet(generation), Shell(site))
  {
    hide Resolve, Kept, Spared;
    SparedMeans(home, nodes, WebLive, Link([WEB_ROOT, generation]));
    SparedMeans(home, nodes, WebSet(generation), Shell(site));
  }

  /** Main result: after a complete `install_web` the gateway finds the new shell if and only if what the link
      led to before spares it. */
  lemma NewShellIsFound(home: Home, nodes: Nodes, generation: string)
    requires HasShell(nodes, StagedWeb) && Name(generation)
    ensures WebFor(home, Shelled(home, nodes, generation)) == Some(nodes[StagedWeb].site) <==>
            ShellSpared(home, nodes, generation, nodes[StagedWeb].site)
  {
    hide Resolve, Generation, ShellSpared;
    OwnLink(home, generation);
    ShellSparedMeans(home, nodes, generation, nodes[StagedWeb].site);
  }

  /** Only generations are below the updater's web folder. */
  lemma OthersAreElsewhere(home: Home, p: Place)
    requires !p.WebSet?
    ensures Below(home, p)[0] != WEB_ROOT
  {
    assert Below(home, p)[0] != [] && WEB_ROOT[0] == 'k' && WEB_ROOT[4] == '-';
    match p {
      case Archive => assert Below(home, p)[0][0] == '.';
      case Staged => assert Below(home, p)[0][0] == '.';
      case StagedPlugins => assert Below(home, p)[0][0] == '.';
      case StagedWeb => assert Below(home, p)[0][0] == '.';
      case WebNew => assert Below(home, p)[0][0] == 'w';
      case _ =>
    }
  }

  /** What stays inside the updater's web folder spares everything but generations. */
  lemma InsideSpares(home: Home, nodes: Nodes, p: Place, n: Node)
    requires Doomed(home, nodes).Some? && home.path + [WEB_ROOT] <= Doomed(home, nodes).value
    requires !p.WebSet?
    ensures Spared(home, nodes, p, n)
  {
    hide Resolve;
    OthersAreElsewhere(home, p);
    var gone, at := Doomed(home, nodes).value, PathOf(home, p);
    assert gone[|home.path|] == (home.path + [WEB_ROOT])[|home.path|] == WEB_ROOT;
    assert at[|home.path|] == Below(home, p)[0];
  }

  /** A text without `..` stays below where it starts. */
  lemma {:induction false} PlainTextGoesDown(at: Path, text: Path)
    requires forall part :: part in text ==> Name(part)
    ensures Resolve(at, text) == at + text
    decreases text
  {
    if text == [] {
      assert at + text == at;
    } else {
      assert text[0] in text;
      PlainTextGoesDown(at + [text[0]], text[1..]);
      assert at + text == at + [text[0]] + text[1..];
    }
  }

  /** Main result: after a link as `install_web` itself makes it, exactly the generation it led to is cleared
      away, and nothing else changes. */
  lemma OwnLinkClearsItsGeneration(home: Home, nodes: Nodes, generation: string, before: string)
    requires StagedWeb in nodes && Name(before) && before != generation
    requires WebLive in nodes && nodes[WebLive] == Link([WEB_ROOT, before]) && HasFolder(nodes, WebSet(before))
    ensures Shelled(home, nodes, generation) == Linked(nodes, generation) - {WebSet(before)}
  {
    hide Resolve;
    TwoNames(home.path, WEB_ROOT, before);
    var linked, gone := Linked(nodes, generation), home.path + [WEB_ROOT, before];
    assert Doomed(home, nodes) == Some(gone);
    assert home.path + [WEB_ROOT] <= gone;
    forall p | p in linked
      ensures Kept(linked[p], PathOf(home, p), gone) == if p == WebSet(before) then None else Some(linked[p])
    {
      if p.WebSet? {
        assert PathOf(home, p) == home.path + [WEB_ROOT, p.generation];
        assert gone[|home.path| + 1] == before;
        assert p.generation != before ==> PathOf(home, p)[|home.path| + 1] != gone[|home.path| + 1];
      } else {
        InsideSpares(home, nodes, p, linked[p]);
      }
    }
    assert Shelled(home, nodes, generation) == Removed(home, linked, gone);
  }

  // ------------------------------------------------------------ links the updater does not make

  /** A link `komo-web`: every generation is removed, the new one too. */
  lemma RootLinkLosesTheShell(home: Home, nodes: Nodes, generation: string)
    requires StagedWeb in nodes && WebLive in nodes && nodes[WebLive] == Link([WEB_ROOT])
    ensures forall g :: WebSet(g) !in Shelled(home, nodes, generation)
    ensures WebFor(home, Shelled(home, nodes, generation)) == None
  {
    PlainTextGoesDown(home.path, [WEB_ROOT]);
    forall g
      ensures WebSet(g) !in Shelled(home, nodes, generation)
    {
      assert home.path + [WEB_ROOT, g] == home.path + [WEB_ROOT] + [g];
      assert home.path + [WEB_ROOT] <= PathOf(home, WebSet(g));
    }
  }

  lemma UpAndOver(home: Home, rest: Path)
    requires |rest| <= 1 && forall part :: part in rest ==> Name(part)
    ensures Resolve(home.path, [WEB_ROOT, ".."] + rest) == home.path + rest
  {
    var text := [WEB_ROOT, ".."] + rest;
    var at := home.path + [WEB_ROOT];
    assert text[1..] == [".."] + rest && text[1..][1..] == rest;
    assert Resolve(home.path, text) == Resolve(at, text[1..]) == Resolve(at[..|at| - 1], rest);
    assert at[..|at| - 1] == home.path;
    PlainTextGoesDown(home.path, rest);
  }

  /** A link `komo-web/..`: the test on its text passes, and nothing of the installation is left. */
  lemma ParentLinkRemovesEverything(home: Home, nodes: Nodes, generation: string)
    requires StagedWeb in nodes && WebLive in nodes && nodes[WebLive] == Link([WEB_ROOT, ".."])
    ensures TakesAll(home, nodes) && Shelled(home, nodes, generation) == map[]
  {
    hide Resolve;
    UpAndOver(home, []);
    assert [WEB_ROOT, ".."] + [] == [WEB_ROOT, ".."] && home.path + [] == home.path;
    assert Doomed(home, nodes) == Some(home.path);
    forall p | p in Linked(nodes, generation)
      ensures Kept(Linked(nodes, generation)[p], PathOf(home, p), home.path).None?
    {
      assert home.path < PathOf(home, p);
    }
    assert Shelled(home, nodes, generation).Keys == {};
  }

  /** A link `komo-web/../komo-plugins`: no program finds its plugins any more. */
  lemma SiblingLinkRemovesTheSibling(home: Home, nodes: Nodes, generation: string, version: string)
    requires StagedWeb in nodes && WebLive in nodes && nodes[WebLive] == Link([WEB_ROOT, "..", PLUGIN_ROOT])
    ensures PluginsFor(Shelled(home, nodes, generation), version) == None
  {
    hide Resolve;
    UpAndOver(home, [PLUGIN_ROOT]);
    assert [WEB_ROOT, ".."] + [PLUGIN_ROOT] == [WEB_ROOT, "..", PLUGIN_ROOT];
    var gone := home.path + [PLUGIN_ROOT];
    assert Doomed(home, nodes) == Some(gone);
    assert PathOf(home, PluginsOf(version)) == gone + [version];
    assert PluginsOf(version) !in Shelled(home, nodes, generation);
  }
}
