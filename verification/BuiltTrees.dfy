/** The tree that a build returns is the workspace's own: every declared component is there, and nothing else. */
module BuiltTrees {
  import opened Lifecycle
  import opened Text
  import opened TreeBuilding

  // ------------------------------------------------------------------- lookup

  /** The record of a component that is there itself. */
  predicate Direct(lib: Library, path: Path) {
    path in lib.records && lib.records[path].Component?
  }

  /** The record is a link, which leads to a component. */
  predicate Linked(lib: Library, path: Path, parent: Path, plugin: string) {
    && path in lib.records && lib.records[path].Link? && plugin != ""
    && var folder := lib.linkFolder(parent, plugin, lib.records[path].target);
       folder.Some? && folder.value in lib.records && lib.records[folder.value].Component?
  }

  /** Where the record of a component is. */
  function Place(lib: Library, path: Path, parent: Path, plugin: string): Path
    requires Direct(lib, path) || Linked(lib, path, parent, plugin)
  {
    if Direct(lib, path) then path else lib.linkFolder(parent, plugin, lib.records[path].target).value
  }

  /**
   * A component is found iff its description is a component, or a link from a slot with
   * a plugin type that leads to one, and its plugin is installed. What is found is
   * what that description says, in the language of the plugin.
   */
  lemma FoundIff(lib: Library, path: Path, parent: Path, plugin: string)
    ensures var r := Locate(lib, path, parent, plugin);
            && (r.Ok? <==>
                  && (Direct(lib, path) || Linked(lib, path, parent, plugin))
                  && lib.records[Place(lib, path, parent, plugin)].plugin in lib.languages)
            && (r.Ok? ==>
                  var c := lib.records[Place(lib, path, parent, plugin)];
                  r.value == Site(c.folder, c.plugin, lib.languages[c.plugin], c.parts))
  {
  }

  /** Why a component is not found. */
  lemma NotFoundMeans(lib: Library, path: Path, parent: Path, plugin: string)
    requires Locate(lib, path, parent, plugin).Err?
    ensures var error := Locate(lib, path, parent, plugin).error;
            if path !in lib.records then error == NoDescription(path)
            else
              match lib.records[path]
              case Component(_, named, _) => error == UnknownPlugin(named)
              case Malformed => error == BadRecord
              case Link(target) =>
                if plugin == "" then error == PluginNameMissing
                else
                  match lib.linkFolder(parent, plugin, target)
                  case None => error == NoLinkTarget
                  case Some(folder) =>
                    if folder !in lib.records then error == NoDescription(folder)
                    else
                      match lib.records[folder]
                      case Component(_, named, _) => error == UnknownPlugin(named)
                      case Link(_) => error == DoublyLinked
                      case Malformed => error == BadRecord
  {
  }

  // -------------------------------------------------------------------- trees

  /** The component in slot `i` of a site. */
  function Slot(lib: Library, site: Site, i: nat): Result<Site>
    requires i < |site.parts|
  {
    Locate(lib, lib.partFolder(site.folder, site.parts[i].id), site.folder, site.parts[i].plugin)
  }

  /**
   * The context stands for the site: a Python component is native, with one child for each
   * declared part, in their order, that stands for the component found there. Any other
   * component is adapted.
   */
  predicate Mirrors(lib: Library, depth: nat, site: Site, t: Built)
    decreases depth, 1
  {
    && t.folder == site.folder
    && (t.Native? <==> Lower(site.language) == "python")
    && (t.Native? ==> MirrorsParts(lib, depth, site, t.kids))
  }

  predicate MirrorsParts(lib: Library, depth: nat, site: Site, kids: seq<Built>)
    decreases depth, 0
  {
    && |kids| == |site.parts|
    && (kids != [] ==> depth > 0)
    && forall i | 0 <= i < |kids| ::
         Slot(lib, site, i).Ok? && Mirrors(lib, depth - 1, Slot(lib, site, i).value, kids[i])
  }

  /** Without its first part. */
  function Later(site: Site): Site
    requires site.parts != []
  {
    site.(parts := site.parts[1..])
  }

  lemma {:induction false} BuildMirrors(lib: Library, local: Local, prepared: set<Path>, depth: nat, site: Site)
    requires Build(lib, local, prepared, depth, site).Ok?
    ensures Mirrors(lib, depth, site, Build(lib, local, prepared, depth, site).value)
    decreases depth, |site.parts| + 1
  {
    if Lower(site.language) == PYTHON {
      PartsMirror(lib, local, prepared, depth, site);
    }
  }

  lemma {:induction false} PartsMirror(lib: Library, local: Local, prepared: set<Path>, depth: nat, site: Site)
    requires BuildParts(lib, local, prepared, depth, site.folder, site.parts).Ok?
    ensures MirrorsParts(lib, depth, site, BuildParts(lib, local, prepared, depth, site.folder, site.parts).value)
    decreases depth, |site.parts|
  {
    if site.parts != [] {
      var kids := BuildParts(lib, local, prepared, depth, site.folder, site.parts).value;
      var first := Slot(lib, site, 0).value;
      BuildMirrors(lib, local, prepared, depth - 1, first);
      PartsMirror(lib, local, prepared, depth, Later(site));
      forall i | 0 <= i < |kids|
        ensures Slot(lib, site, i).Ok? && Mirrors(lib, depth - 1, Slot(lib, site, i).value, kids[i])
      {
        if i > 0 {
          assert Slot(lib, site, i) == Slot(lib, Later(site), i - 1) && kids[i] == kids[1..][i - 1];
        }
      }
    }
  }

  /** A tree that is built is the only one that can stand for its site. */
  lemma {:induction false} MirrorIsUnique(lib: Library, depth: nat, site: Site, a: Built, b: Built)
    requires Mirrors(lib, depth, site, a) && Mirrors(lib, depth, site, b)
    ensures a == b
    decreases depth
  {
    if a.Native? {
      forall i | 0 <= i < |a.kids| ensures a.kids[i] == b.kids[i] {
        MirrorIsUnique(lib, depth - 1, Slot(lib, site, i).value, a.kids[i], b.kids[i]);
      }
    }
  }

  /** Every root of a build stands for the component found at its path, in the order of the paths. */
  lemma {:induction false} RootsMirror(lib: Library, local: Local, prepared: set<Path>, depth: nat, roots: seq<Root>, i: nat)
    requires BuildRoots(lib, local, prepared, depth, roots).Ok?
    ensures var r := BuildRoots(lib, local, prepared, depth, roots).value;
            && |r| == |roots|
            && (i < |roots| ==>
                  var site := Locate(lib, roots[i].path, roots[i].path, roots[i].plugin);
                  site.Ok? && Mirrors(lib, depth, site.value, r[i]))
  {
    if roots != [] {
      BuildMirrors(lib, local, prepared, depth, Locate(lib, roots[0].path, roots[0].path, roots[0].plugin).value);
      RootsMirror(lib, local, prepared, depth, roots[1..], if i > 0 then i - 1 else 0);
    }
  }

  /** Everything that a build needs is there: plugins and parameters that work, and a host for each other component. */
  predicate Buildable(lib: Library, local: Local, prepared: set<Path>, depth: nat, site: Site)
    decreases depth, 1
  {
    && local.parameters(site.folder)
    && if Lower(site.language) == "python" then
         local.instance(site.folder) && PartsBuildable(lib, local, prepared, depth, site)
       else site.folder in prepared
  }

  predicate PartsBuildable(lib: Library, local: Local, prepared: set<Path>, depth: nat, site: Site)
    decreases depth, 0
  {
    && (site.parts != [] ==> depth > 0)
    && forall i | 0 <= i < |site.parts| ::
         Slot(lib, site, i).Ok? && Buildable(lib, local, prepared, depth - 1, Slot(lib, site, i).value)
  }

  lemma {:induction false} BuildsIff(lib: Library, local: Local, prepared: set<Path>, depth: nat, site: Site)
    ensures Build(lib, local, prepared, depth, site).Ok? <==> Buildable(lib, local, prepared, depth, site)
    decreases depth, |site.parts| + 1
  {
    if Lower(site.language) == PYTHON {
      PartsBuildIff(lib, local, prepared, depth, site);
    }
  }

  lemma {:induction false} PartsBuildIff(lib: Library, local: Local, prepared: set<Path>, depth: nat, site: Site)
    ensures BuildParts(lib, local, prepared, depth, site.folder, site.parts).Ok? <==> PartsBuildable(lib, local, prepared, depth, site)
    decreases depth, |site.parts|
  {
    if site.parts != [] && depth > 0 {
      var later := Later(site);
      PartsBuildIff(lib, local, prepared, depth, later);
      if Slot(lib, site, 0).Ok? {
        BuildsIff(lib, local, prepared, depth - 1, Slot(lib, site, 0).value);
      }
      forall i | 0 < i < |site.parts| ensures Slot(lib, site, i) == Slot(lib, later, i - 1) {
      }
      forall i | 0 <= i < |later.parts| ensures Slot(lib, later, i) == Slot(lib, site, i + 1) {
      }
    }
  }

  // --------------------------------------------------------------- first pass

  /** The component `x` needs a host: it is not written in Python, and the way to it is. */
  predicate Needed(lib: Library, depth: nat, site: Site, x: Site)
    decreases depth
  {
    if Normalized(site.language) != "python" then x == site
    else depth > 0 && exists i | 0 <= i < |site.parts| :: Slot(lib, site, i).Ok? && Needed(lib, depth - 1, Slot(lib, site, i).value, x)
  }

  /** Every component that the collection comes to is found. */
  predicate Whole(lib: Library, depth: nat, site: Site)
    decreases depth
  {
    Normalized(site.language) == "python" ==>
      && (site.parts != [] ==> depth > 0)
      && forall i | 0 <= i < |site.parts| :: Slot(lib, site, i).Ok? && Whole(lib, depth - 1, Slot(lib, site, i).value)
  }

  /** The collection succeeds iff it finds everything it comes to, and then it gives exactly the components that need a host. */
  lemma {:induction false} CollectedIff(lib: Library, depth: nat, site: Site)
    ensures Collect(lib, depth, site).Ok? <==> Whole(lib, depth, site)
    ensures Collect(lib, depth, site).Ok? ==> forall x :: x in Collect(lib, depth, site).value <==> Needed(lib, depth, site, x)
    decreases depth, |site.parts| + 1
  {
    if Normalized(site.language) == PYTHON {
      PartsCollectedIff(lib, depth, site);
    }
  }

  lemma {:induction false} PartsCollectedIff(lib: Library, depth: nat, site: Site)
    requires Normalized(site.language) == PYTHON
    ensures CollectParts(lib, depth, site.folder, site.parts).Ok? <==> Whole(lib, depth, site)
    ensures CollectParts(lib, depth, site.folder, site.parts).Ok? ==>
              forall x :: x in CollectParts(lib, depth, site.folder, site.parts).value <==> Needed(lib, depth, site, x)
    decreases depth, |site.parts|
  {
    if site.parts != [] && depth > 0 {
      var later := Later(site);
      PartsCollectedIff(lib, depth, later);
      if Slot(lib, site, 0).Ok? {
        CollectedIff(lib, depth - 1, Slot(lib, site, 0).value);
      }
      forall i | 0 < i < |site.parts| ensures Slot(lib, site, i) == Slot(lib, later, i - 1) {
      }
      forall i | 0 <= i < |later.parts| ensures Slot(lib, later, i) == Slot(lib, site, i + 1) {
      }
    }
  }
}
