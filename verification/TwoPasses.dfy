/** When the two passes of a build agree about which components need a host. */
module TwoPasses {
  import opened Lifecycle
  import opened Text
  import opened TreeBuilding

  lemma LocatedIn(lib: Library, path: Path, parent: Path, plugin: string)
    ensures var r := Locate(lib, path, parent, plugin); r.Ok? ==> Located(lib, r.value)
  {
    var r := Locate(lib, path, parent, plugin);
    if r.Ok? {
      var linked := if lib.records[path].Link? then lib.linkFolder(parent, plugin, lib.records[path].target).value else path;
      assert lib.records[linked] == Component(r.value.folder, r.value.plugin, r.value.parts);
    }
  }

  lemma {:induction false} FoldersAppend(a: seq<Site>, b: seq<Site>)
    ensures Folders(a + b) == Folders(a) + Folders(b)
  {
    if a == [] {
      assert a + b == b;
    } else {
      assert (a + b)[1..] == a[1..] + b;
      FoldersAppend(a[1..], b);
    }
  }

  predicate AllPrepared(sites: seq<Site>, prepared: set<Path>) {
    forall i | 0 <= i < |sites| :: sites[i].folder in prepared
  }

  lemma Parts(a: seq<Site>, b: seq<Site>, prepared: set<Path>)
    requires AllPrepared(a + b, prepared)
    ensures AllPrepared(a, prepared) && AllPrepared(b, prepared)
  {
    forall i | 0 <= i < |a| ensures a[i].folder in prepared {
      assert (a + b)[i] == a[i];
    }
    forall i | 0 <= i < |b| ensures b[i].folder in prepared {
      assert (a + b)[|a| + i] == b[i];
    }
  }

  /**
   * The passes agree: if the collection of a tree without misread languages
   * succeeded, then the build, with at least the collected components prepared,
   * never meets an unprepared one; and a tree it returns has exactly the collected
   * components as adapted contexts, in the same order.
   */
  lemma {:induction false} PassesAgree(lib: Library, local: Local, prepared: set<Path>, c: nat, b: nat, site: Site)
    requires Collect(lib, c, site).Ok? && AllPrepared(Collect(lib, c, site).value, prepared) && Clean(lib, c, site)
    ensures var r := Build(lib, local, prepared, b, site);
            && (r.Err? ==> !r.error.NotPrepared?)
            && (r.Ok? ==> Owners(r.value) == Folders(Collect(lib, c, site).value))
            && (b >= c && (forall f :: local.instance(f) && local.parameters(f)) ==> r.Ok?)
    decreases c, |site.parts| + 1
  {
    hide Normalized, Lower;
    if Normalized(site.language) == PYTHON {
      PartsAgree(lib, local, prepared, c, b, site.folder, site.parts);
    } else {
      assert Lower(site.language) != PYTHON by { PlainPython(site.language); }
      assert Collect(lib, c, site).value[0] == site;
    }
  }

  /** Text that lowers to "python" has no white space to strip. */
  lemma PlainPython(language: string)
    ensures Lower(language) == PYTHON ==> Normalized(language) == PYTHON
  {
    if Lower(language) == PYTHON {
      LowerLength(language);
      LowerAt(language, 0);
      LowerAt(language, 5);
      StripKeepsIff(language);
    }
  }

  lemma {:induction false} LowerAt(s: string, i: nat)
    requires i < |s|
    ensures |Lower(s)| == |s| && Lower(s)[i] == LowerChar(s[i])
  {
    LowerLength(s);
    if i > 0 {
      LowerAt(s[1..], i - 1);
    }
  }

  lemma {:induction false} PartsAgree(
      lib: Library, local: Local, prepared: set<Path>, c: nat, b: nat, folder: Path, parts: seq<Part>)
    requires CollectParts(lib, c, folder, parts).Ok? && CleanParts(lib, c, folder, parts)
    requires AllPrepared(CollectParts(lib, c, folder, parts).value, prepared)
    ensures var r := BuildParts(lib, local, prepared, b, folder, parts);
            && (r.Err? ==> !r.error.NotPrepared?)
            && (r.Ok? ==> OwnersAll(r.value) == Folders(CollectParts(lib, c, folder, parts).value))
            && (b >= c && (forall f :: local.instance(f) && local.parameters(f)) ==> r.Ok?)
    decreases c, |parts|
  {
    hide Normalized, Lower;
    if parts != [] && b > 0 {
      var child := Locate(lib, lib.partFolder(folder, parts[0].id), folder, parts[0].plugin).value;
      var first := Collect(lib, c - 1, child).value;
      var rest := CollectParts(lib, c, folder, parts[1..]).value;
      Parts(first, rest, prepared);
      FoldersAppend(first, rest);
      PassesAgree(lib, local, prepared, c - 1, b - 1, child);
      PartsAgree(lib, local, prepared, c, b, folder, parts[1..]);
    }
  }

  lemma SameFolderSameLanguage(lib: Library, a: Site, b: Site)
    requires Stable(lib) && Located(lib, a) && Located(lib, b) && a.folder == b.folder
    ensures a.language == b.language
  {
    var p :| p in lib.records && lib.records[p] == Component(a.folder, a.plugin, a.parts);
    var q :| q in lib.records && lib.records[q] == Component(b.folder, b.plugin, b.parts);
    assert lib.records[p].folder == lib.records[q].folder;
  }

  /** A misread component is never among the prepared ones. */
  lemma MisreadIsUnprepared(lib: Library, prepared: set<Path>, site: Site)
    requires Stable(lib) && HostsOnly(lib, prepared) && Located(lib, site) && Misread(site)
    ensures site.folder !in prepared
  {
    hide Normalized, Lower, Stable, Located;
    if site.folder in prepared {
      var host :| Located(lib, host) && host.folder == site.folder && Normalized(host.language) != PYTHON;
      SameFolderSameLanguage(lib, site, host);
    }
  }

  /** A tree with a misread language fails exactly because something was not prepared. */
  lemma {:induction false} MisreadFails(lib: Library, local: Local, prepared: set<Path>, c: nat, b: nat, site: Site)
    requires Collect(lib, c, site).Ok? && AllPrepared(Collect(lib, c, site).value, prepared) && !Clean(lib, c, site)
    requires Stable(lib) && HostsOnly(lib, prepared) && Located(lib, site) && b >= c
    requires forall f :: local.instance(f) && local.parameters(f)
    ensures var r := Build(lib, local, prepared, b, site); r.Err? && r.error.NotPrepared?
    decreases c, |site.parts| + 1
  {
    hide Normalized, Lower, Stable, HostsOnly, Located;
    if Misread(site) {
      MisreadIsUnprepared(lib, prepared, site);
    } else {
      MisreadPartsFail(lib, local, prepared, c, b, site.folder, site.parts);
    }
  }

  lemma {:induction false} MisreadPartsFail(
      lib: Library, local: Local, prepared: set<Path>, c: nat, b: nat, folder: Path, parts: seq<Part>)
    requires CollectParts(lib, c, folder, parts).Ok? && !CleanParts(lib, c, folder, parts)
    requires AllPrepared(CollectParts(lib, c, folder, parts).value, prepared)
    requires Stable(lib) && HostsOnly(lib, prepared) && b >= c
    requires forall f :: local.instance(f) && local.parameters(f)
    ensures var r := BuildParts(lib, local, prepared, b, folder, parts); r.Err? && r.error.NotPrepared?
    decreases c, |parts|
  {
    hide Normalized, Lower, Stable, HostsOnly, Located;
    var path := lib.partFolder(folder, parts[0].id);
    var child := Locate(lib, path, folder, parts[0].plugin).value;
    var first := Collect(lib, c - 1, child).value;
    var rest := CollectParts(lib, c, folder, parts[1..]).value;
    Parts(first, rest, prepared);
    LocatedIn(lib, path, folder, parts[0].plugin);
    if Clean(lib, c - 1, child) {
      PassesAgree(lib, local, prepared, c - 1, b - 1, child);
      MisreadPartsFail(lib, local, prepared, c, b, folder, parts[1..]);
    } else {
      MisreadFails(lib, local, prepared, c - 1, b - 1, child);
    }
  }

  /**
   * Exactly when the passes disagree. With working plugins, stable metadata and
   * the collected components prepared, the build of a tree fails iff it contains
   * a component whose language is "python" only after stripping white space; the
   * error is then that a component was not prepared.
   */
  lemma BuildsIffClean(lib: Library, local: Local, prepared: set<Path>, c: nat, b: nat, site: Site)
    requires Collect(lib, c, site).Ok? && AllPrepared(Collect(lib, c, site).value, prepared)
    requires Stable(lib) && HostsOnly(lib, prepared) && Located(lib, site) && b >= c
    requires forall f :: local.instance(f) && local.parameters(f)
    ensures var r := Build(lib, local, prepared, b, site);
            && (r.Ok? <==> Clean(lib, c, site))
            && (r.Err? ==> r.error.NotPrepared?)
  {
    hide Normalized, Lower, Stable, HostsOnly, Located, Build, Collect, Clean;
    if Clean(lib, c, site) {
      PassesAgree(lib, local, prepared, c, b, site);
    } else {
      MisreadFails(lib, local, prepared, c, b, site);
    }
  }

  // ------------------------------------------------------------------- roots

  predicate CleanRoots(lib: Library, c: nat, sites: seq<Site>) {
    forall i | 0 <= i < |sites| :: Clean(lib, c, sites[i])
  }

  /** The same agreement for a whole list of component roots. */
  lemma {:induction false} RootsAgree(lib: Library, local: Local, prepared: set<Path>, c: nat, b: nat, roots: seq<Root>)
    requires LocateRoots(lib, roots).Ok? && CollectRoots(lib, c, LocateRoots(lib, roots).value).Ok?
    requires AllPrepared(CollectRoots(lib, c, LocateRoots(lib, roots).value).value, prepared)
    requires CleanRoots(lib, c, LocateRoots(lib, roots).value)
    ensures var r := BuildRoots(lib, local, prepared, b, roots);
            && (r.Err? ==> !r.error.NotPrepared?)
            && (r.Ok? ==> OwnersAll(r.value) == Folders(CollectRoots(lib, c, LocateRoots(lib, roots).value).value))
            && (b >= c && (forall f :: local.instance(f) && local.parameters(f)) ==> r.Ok?)
    decreases |roots|
  {
    hide Normalized, Lower, Build, Collect, Clean, Locate;
    if roots != [] {
      var sites := LocateRoots(lib, roots).value;
      var first := Collect(lib, c, sites[0]).value;
      var rest := CollectRoots(lib, c, sites[1..]).value;
      Parts(first, rest, prepared);
      FoldersAppend(first, rest);
      assert CleanRoots(lib, c, sites[1..]) by {
        forall i | 0 <= i < |sites| - 1 ensures Clean(lib, c, sites[1..][i]) {
          assert sites[1..][i] == sites[i + 1];
        }
      }
      PassesAgree(lib, local, prepared, c, b, sites[0]);
      RootsAgree(lib, local, prepared, c, b, roots[1..]);
    }
  }

  lemma {:induction false} RootsMisread(lib: Library, local: Local, prepared: set<Path>, c: nat, b: nat, roots: seq<Root>)
    requires LocateRoots(lib, roots).Ok? && CollectRoots(lib, c, LocateRoots(lib, roots).value).Ok?
    requires AllPrepared(CollectRoots(lib, c, LocateRoots(lib, roots).value).value, prepared)
    requires !CleanRoots(lib, c, LocateRoots(lib, roots).value)
    requires Stable(lib) && HostsOnly(lib, prepared) && b >= c
    requires forall f :: local.instance(f) && local.parameters(f)
    ensures var r := BuildRoots(lib, local, prepared, b, roots); r.Err? && r.error.NotPrepared?
    decreases |roots|
  {
    hide Normalized, Lower, Build, Collect, Clean, Locate, Stable, HostsOnly, Located;
    var sites := LocateRoots(lib, roots).value;
    var i :| 0 <= i < |sites| && !Clean(lib, c, sites[i]);
    var first := Collect(lib, c, sites[0]).value;
    var rest := CollectRoots(lib, c, sites[1..]).value;
    Parts(first, rest, prepared);
    LocatedIn(lib, roots[0].path, roots[0].path, roots[0].plugin);
    BuildsIffClean(lib, local, prepared, c, b, sites[0]);
    if Clean(lib, c, sites[0]) {
      assert !Clean(lib, c, sites[1..][i - 1]);
      RootsMisread(lib, local, prepared, c, b, roots[1..]);
    }
  }

  ghost predicate Hosted(lib: Library, sites: seq<Site>) {
    forall i | 0 <= i < |sites| :: Located(lib, sites[i]) && Normalized(sites[i].language) != PYTHON
  }

  /** Everything that is collected needs a host. */
  lemma {:induction false} CollectedAreHosted(lib: Library, c: nat, site: Site)
    requires Located(lib, site)
    ensures Collect(lib, c, site).Ok? ==> Hosted(lib, Collect(lib, c, site).value)
    decreases c, |site.parts| + 1
  {
    hide Normalized, Located;
    if Normalized(site.language) == PYTHON {
      PartsAreHosted(lib, c, site.folder, site.parts);
    }
  }

  lemma {:induction false} PartsAreHosted(lib: Library, c: nat, folder: Path, parts: seq<Part>)
    ensures var r := CollectParts(lib, c, folder, parts); r.Ok? ==> Hosted(lib, r.value)
    decreases c, |parts|
  {
    hide Normalized, Located, Locate;
    if parts != [] && c > 0 {
      var path := lib.partFolder(folder, parts[0].id);
      var child := Locate(lib, path, folder, parts[0].plugin);
      LocatedIn(lib, path, folder, parts[0].plugin);
      if child.Ok? {
        CollectedAreHosted(lib, c - 1, child.value);
        PartsAreHosted(lib, c, folder, parts[1..]);
      }
    }
  }

  lemma {:induction false} RootsAreHosted(lib: Library, c: nat, roots: seq<Root>)
    requires LocateRoots(lib, roots).Ok?
    ensures var r := CollectRoots(lib, c, LocateRoots(lib, roots).value); r.Ok? ==> Hosted(lib, r.value)
    decreases |roots|
  {
    hide Normalized, Located, Locate, Collect;
    if roots != [] {
      LocatedIn(lib, roots[0].path, roots[0].path, roots[0].plugin);
      CollectedAreHosted(lib, c, LocateRoots(lib, roots).value[0]);
      RootsAreHosted(lib, c, roots[1..]);
    }
  }

  /** The folders that a build prepares after collecting these components. */
  function FolderSet(sites: seq<Site>): set<Path> {
    set i | 0 <= i < |sites| :: sites[i].folder
  }

  /**
   * The whole build from component roots, over any workspace with stable metadata
   * and working plugins: once the collection has succeeded, the build succeeds iff
   * no collected tree contains a language that is "python" only after stripping
   * white space, and otherwise fails because a component was not prepared.
   */
  lemma BuildSucceedsIffClean(lib: Library, local: Local, c: nat, b: nat, roots: seq<Root>)
    requires LocateRoots(lib, roots).Ok? && CollectRoots(lib, c, LocateRoots(lib, roots).value).Ok?
    requires Stable(lib) && b >= c && (forall f :: local.instance(f) && local.parameters(f))
    ensures var sites := CollectRoots(lib, c, LocateRoots(lib, roots).value).value;
            var r := BuildRoots(lib, local, FolderSet(sites), b, roots);
            && (r.Ok? <==> CleanRoots(lib, c, LocateRoots(lib, roots).value))
            && (r.Err? ==> r.error.NotPrepared?)
            && (r.Ok? ==> OwnersAll(r.value) == Folders(sites))
  {
    hide Normalized, Lower, CollectRoots, LocateRoots, Stable, Located;
    var sites := CollectRoots(lib, c, LocateRoots(lib, roots).value).value;
    RootsAreHosted(lib, c, roots);
    assert HostsOnly(lib, FolderSet(sites)) by {
      forall f | f in FolderSet(sites)
        ensures exists site :: Located(lib, site) && site.folder == f && Normalized(site.language) != PYTHON
      {
        var i :| 0 <= i < |sites| && sites[i].folder == f;
        assert Located(lib, sites[i]);
      }
    }
    if CleanRoots(lib, c, LocateRoots(lib, roots).value) {
      RootsAgree(lib, local, FolderSet(sites), c, b, roots);
    } else {
      RootsMisread(lib, local, FolderSet(sites), c, b, roots);
    }
  }

  // ------------------------------------------------------------------ scripts

  /** A script build passes no plugin names to its second pass. */
  function Nameless(roots: seq<Root>): seq<Root> {
    if roots == [] then [] else [roots[0].(plugin := "")] + Nameless(roots[1..])
  }

  /** The second pass locates a collected root in the same way unless it is linked; then it cannot. */
  lemma NamelessLocate(lib: Library, path: Path, plugin: string)
    requires Locate(lib, path, path, plugin).Ok?
    ensures path in lib.records
    ensures Locate(lib, path, path, "") ==
            if lib.records[path].Link? then Err(PluginNameMissing) else Locate(lib, path, path, plugin)
  {
  }

  predicate NoneLinked(lib: Library, roots: seq<Root>) {
    forall i | 0 <= i < |roots| :: roots[i].path in lib.records ==> !lib.records[roots[i].path].Link?
  }

  lemma {:induction false} ScriptRootsAgree(lib: Library, local: Local, prepared: set<Path>, c: nat, b: nat, roots: seq<Root>)
    requires LocateRoots(lib, roots).Ok? && CollectRoots(lib, c, LocateRoots(lib, roots).value).Ok?
    requires AllPrepared(CollectRoots(lib, c, LocateRoots(lib, roots).value).value, prepared)
    requires CleanRoots(lib, c, LocateRoots(lib, roots).value)
    requires b >= c && (forall f :: local.instance(f) && local.parameters(f))
    ensures var r := BuildRoots(lib, local, prepared, b, Nameless(roots));
            && (r.Ok? <==> NoneLinked(lib, roots))
            && (r.Err? ==> r.error == PluginNameMissing)
            && (r.Ok? ==> OwnersAll(r.value) == Folders(CollectRoots(lib, c, LocateRoots(lib, roots).value).value))
    decreases |roots|
  {
    hide Normalized, Lower, Build, Collect, Clean, Locate;
    if roots != [] {
      var sites := LocateRoots(lib, roots).value;
      var first := Collect(lib, c, sites[0]).value;
      var rest := CollectRoots(lib, c, sites[1..]).value;
      assert Nameless(roots)[0] == roots[0].(plugin := "") && Nameless(roots)[1..] == Nameless(roots[1..]);
      NamelessLocate(lib, roots[0].path, roots[0].plugin);
      Parts(first, rest, prepared);
      FoldersAppend(first, rest);
      assert CleanRoots(lib, c, sites[1..]) by {
        forall i | 0 <= i < |sites| - 1 ensures Clean(lib, c, sites[1..][i]) {
          assert sites[1..][i] == sites[i + 1];
        }
      }
      PassesAgree(lib, local, prepared, c, b, sites[0]);
      ScriptRootsAgree(lib, local, prepared, c, b, roots[1..]);
      LinkedFirst(lib, roots);
    }
  }

  lemma LinkedFirst(lib: Library, roots: seq<Root>)
    requires roots != []
    ensures NoneLinked(lib, roots) <==>
            (roots[0].path in lib.records ==> !lib.records[roots[0].path].Link?) && NoneLinked(lib, roots[1..])
  {
    if (roots[0].path in lib.records ==> !lib.records[roots[0].path].Link?) && NoneLinked(lib, roots[1..]) {
      forall i | 0 <= i < |roots| ensures roots[i].path in lib.records ==> !lib.records[roots[i].path].Link? {
        assert i == 0 || roots[i] == roots[1..][i - 1];
      }
    }
    if NoneLinked(lib, roots) {
      forall i | 0 <= i < |roots| - 1 ensures roots[1..][i].path in lib.records ==> !lib.records[roots[1..][i].path].Link? {
        assert roots[1..][i] == roots[i + 1];
      }
    }
  }

  /**
   * Script builds, whose second pass drops the plugin names: with working plugins
   * and no misread language, a script whose components were all collected is built
   * iff none of them is a link; otherwise it fails because a plugin name is missing.
   */
  lemma ScriptBuildSucceedsIffUnlinked(lib: Library, local: Local, c: nat, b: nat, roots: seq<Root>)
    requires LocateRoots(lib, roots).Ok? && CollectRoots(lib, c, LocateRoots(lib, roots).value).Ok?
    requires CleanRoots(lib, c, LocateRoots(lib, roots).value)
    requires b >= c && (forall f :: local.instance(f) && local.parameters(f))
    ensures var sites := CollectRoots(lib, c, LocateRoots(lib, roots).value).value;
            var r := BuildRoots(lib, local, FolderSet(sites), b, Nameless(roots));
            && (r.Ok? <==> NoneLinked(lib, roots))
            && (r.Err? ==> r.error == PluginNameMissing)
            && (r.Ok? ==> OwnersAll(r.value) == Folders(sites))
  {
    hide CollectRoots, LocateRoots, CleanRoots, NoneLinked;
    ScriptRootsAgree(lib, local, FolderSet(CollectRoots(lib, c, LocateRoots(lib, roots).value).value), c, b, roots);
  }
}
