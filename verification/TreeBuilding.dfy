/**
 * The two passes of a build over a workspace: the collection finds the
 * components that need a host process, the build makes the context tree.
 */
module TreeBuilding {
  import opened Lifecycle
  import opened Text

  /** An absolute path; it is never empty. */
  type Path = nat

  /** A subcomponent of a component: its folder name and the plugin type of its slot. */
  datatype Part = Part(id: nat, plugin: string)

  /** What a description file says. */
  datatype Record = Component(folder: Path, plugin: string, parts: seq<Part>) | Link(target: nat) | Malformed

  /** The workspace and the installed plugins; `languages` gives each plugin's SourceLanguage. */
  datatype Library = Library(
    records: map<Path, Record>,
    languages: map<string, string>,
    partFolder: (Path, nat) -> Path,
    linkFolder: (Path, string, nat) -> Option<Path>)

  datatype BuildError =
    | NoDescription(path: Path)
    | PluginNameMissing
    | NoLinkTarget
    | DoublyLinked
    | BadRecord
    | UnknownPlugin(plugin: string)
    | TooDeep
    | InstanceFailed(folder: Path)
    | ParametersFailed(folder: Path)
    | NotPrepared(folder: Path)
    | ClientFailed(folder: Path)
    | HostRefused(folder: Path)
    | HostFailed(event: nat)

  datatype Result<+T> = Ok(value: T) | Err(error: BuildError)

  /** A resolved component. */
  datatype Site = Site(folder: Path, plugin: string, language: string, parts: seq<Part>)

  /** `resolve_component` */
  function Resolve(lib: Library, path: Path, parent: Path, plugin: string): Result<Record> {
    if path !in lib.records then Err(NoDescription(path))
    else
      match lib.records[path]
      case Component(_, _, _) => Ok(lib.records[path])
      case Malformed => Err(BadRecord)
      case Link(target) =>
        if plugin == "" then Err(PluginNameMissing)
        else
          var linked := lib.linkFolder(parent, plugin, target);
          if linked.None? then Err(NoLinkTarget)
          else if linked.value !in lib.records then Err(NoDescription(linked.value))
          else if lib.records[linked.value].Component? then Ok(lib.records[linked.value])
          else if lib.records[linked.value].Link? then Err(DoublyLinked)
          else Err(BadRecord)
  }

  /** Both passes look a component up in the same way. */
  function Locate(lib: Library, path: Path, parent: Path, plugin: string): Result<Site> {
    var r := Resolve(lib, path, parent, plugin);
    if r.Err? then Err(r.error)
    else if !r.value.Component? then Err(BadRecord)
    else if r.value.plugin !in lib.languages then Err(UnknownPlugin(r.value.plugin))
    else Ok(Site(r.value.folder, r.value.plugin, lib.languages[r.value.plugin], r.value.parts))
  }

  const PYTHON: string := "python"

  // ------------------------------------------------------------- first pass

  /**
   * `_collect_component_nodes`: the components that are not written in Python.
   * `depth` is the recursion limit of the interpreter.
   */
  function Collect(lib: Library, depth: nat, site: Site): Result<seq<Site>>
    decreases depth, |site.parts| + 1
  {
    if Normalized(site.language) != PYTHON then Ok([site])
    else CollectParts(lib, depth, site.folder, site.parts)
  }

  function CollectParts(lib: Library, depth: nat, folder: Path, parts: seq<Part>): Result<seq<Site>>
    decreases depth, |parts|
  {
    if parts == [] then Ok([])
    else if depth == 0 then Err(TooDeep)
    else
      var child := Locate(lib, lib.partFolder(folder, parts[0].id), folder, parts[0].plugin);
      if child.Err? then Err(child.error)
      else
        var first := Collect(lib, depth - 1, child.value);
        if first.Err? then first
        else
          var rest := CollectParts(lib, depth, folder, parts[1..]);
          if rest.Err? then rest else Ok(first.value + rest.value)
  }

  // ------------------------------------------------------------ second pass

  /** A context: a native one with its children, or an adapted one that owns a host handle. */
  datatype Built = Native(folder: Path, kids: seq<Built>) | Adapted(folder: Path)

  /** Which plugin constructors and parameter files work. */
  datatype Local = Local(instance: Path -> bool, parameters: Path -> bool)

  /** `_build_component_from_path` of a component that was located. */
  function Build(lib: Library, local: Local, prepared: set<Path>, depth: nat, site: Site): Result<Built>
    decreases depth, |site.parts| + 1
  {
    if Lower(site.language) == PYTHON then
      if !local.instance(site.folder) then Err(InstanceFailed(site.folder))
      else if !local.parameters(site.folder) then Err(ParametersFailed(site.folder))
      else
        var kids := BuildParts(lib, local, prepared, depth, site.folder, site.parts);
        if kids.Err? then Err(kids.error) else Ok(Native(site.folder, kids.value))
    else if site.folder !in prepared then Err(NotPrepared(site.folder))
    else if !local.parameters(site.folder) then Err(ParametersFailed(site.folder))
    else Ok(Adapted(site.folder))
  }

  function BuildParts(lib: Library, local: Local, prepared: set<Path>, depth: nat, folder: Path, parts: seq<Part>)
    : Result<seq<Built>>
    decreases depth, |parts|
  {
    if parts == [] then Ok([])
    else if depth == 0 then Err(TooDeep)
    else
      var child := Locate(lib, lib.partFolder(folder, parts[0].id), folder, parts[0].plugin);
      if child.Err? then Err(child.error)
      else
        var first := Build(lib, local, prepared, depth - 1, child.value);
        if first.Err? then Err(first.error)
        else
          var rest := BuildParts(lib, local, prepared, depth, folder, parts[1..]);
          if rest.Err? then rest else Ok([first.value] + rest.value)
  }

  // ------------------------------------------------------------------ roots

  datatype Root = Root(path: Path, plugin: string)

  function LocateRoots(lib: Library, roots: seq<Root>): Result<seq<Site>> {
    if roots == [] then Ok([])
    else
      var first := Locate(lib, roots[0].path, roots[0].path, roots[0].plugin);
      if first.Err? then Err(first.error)
      else
        var rest := LocateRoots(lib, roots[1..]);
        if rest.Err? then rest else Ok([first.value] + rest.value)
  }

  function CollectRoots(lib: Library, depth: nat, sites: seq<Site>): Result<seq<Site>> {
    if sites == [] then Ok([])
    else
      var first := Collect(lib, depth, sites[0]);
      if first.Err? then first
      else
        var rest := CollectRoots(lib, depth, sites[1..]);
        if rest.Err? then rest else Ok(first.value + rest.value)
  }

  /** The second pass looks every root up again. */
  function BuildRoots(lib: Library, local: Local, prepared: set<Path>, depth: nat, roots: seq<Root>): Result<seq<Built>> {
    if roots == [] then Ok([])
    else
      var site := Locate(lib, roots[0].path, roots[0].path, roots[0].plugin);
      if site.Err? then Err(site.error)
      else
        var first := Build(lib, local, prepared, depth, site.value);
        if first.Err? then Err(first.error)
        else
          var rest := BuildRoots(lib, local, prepared, depth, roots[1..]);
          if rest.Err? then rest else Ok([first.value] + rest.value)
  }

  // ------------------------------------------------------------ vocabulary

  /** The collection takes the component for Python, the build does not. */
  predicate Misread(site: Site) {
    Normalized(site.language) == PYTHON && Lower(site.language) != PYTHON
  }

  /** No component that the collection visits is misread. */
  predicate Clean(lib: Library, depth: nat, site: Site)
    decreases depth, |site.parts| + 1
  {
    !Misread(site) && (Normalized(site.language) == PYTHON ==> CleanParts(lib, depth, site.folder, site.parts))
  }

  predicate CleanParts(lib: Library, depth: nat, folder: Path, parts: seq<Part>)
    decreases depth, |parts|
  {
    parts == [] || depth == 0 ||
    var child := Locate(lib, lib.partFolder(folder, parts[0].id), folder, parts[0].plugin);
    && (child.Ok? ==> Clean(lib, depth - 1, child.value))
    && CleanParts(lib, depth, folder, parts[1..])
  }

  function Folders(sites: seq<Site>): seq<Path> {
    if sites == [] then [] else [sites[0].folder] + Folders(sites[1..])
  }

  /** The folders of the adapted contexts of a tree, from left to right. */
  function Owners(t: Built): seq<Path> {
    if t.Adapted? then [t.folder] else OwnersAll(t.kids)
  }

  function OwnersAll(ts: seq<Built>): seq<Path> {
    if ts == [] then [] else Owners(ts[0]) + OwnersAll(ts[1..])
  }

  /** The folder of a component determines its plugin. */
  ghost predicate Stable(lib: Library) {
    forall p, q | p in lib.records && q in lib.records && lib.records[p].Component? && lib.records[q].Component?
      && lib.records[p].folder == lib.records[q].folder :: lib.records[p].plugin == lib.records[q].plugin
  }

  /** The site was located in the library. */
  ghost predicate Located(lib: Library, site: Site) {
    && site.plugin in lib.languages && lib.languages[site.plugin] == site.language
    && exists p :: p in lib.records && lib.records[p] == Component(site.folder, site.plugin, site.parts)
  }

  /** Every prepared folder is that of a component that the collection did not take for Python. */
  ghost predicate HostsOnly(lib: Library, prepared: set<Path>) {
    forall f | f in prepared :: exists site :: Located(lib, site) && site.folder == f && Normalized(site.language) != PYTHON
  }
}
