/**
 * Relative imports of plugin modules: what a failed import takes back from the
 * module table and from the attributes of packages.
 */
module ModuleTable {
  import opened Lifecycle

  type ModuleId = nat

  /** `sys.modules`, the module-valued attributes of module objects, and `__file__`. */
  datatype Table = Table(
    names: map<string, ModuleId>,
    attributes: map<(ModuleId, string), ModuleId>,
    files: map<ModuleId, string>)

  /** What running a module body did to the table, and whether it returned normally. */
  datatype Executed = Executed(table: Table, ok: bool)

  /** Which file is imported, and what is decided outside. */
  datatype Request = Request(
    package: string, stem: string, path: string,
    newPackage: ModuleId, newModule: ModuleId, hasLoader: bool,
    execute: Table -> Executed)

  datatype Imported = Imported(table: Table, loaded: Option<ModuleId>)

  function Qualified(q: Request): string {
    q.package + "." + q.stem
  }

  /** The name is the package or below it. */
  predicate InSlice(package: string, name: string) {
    name == package || package + "." <= name
  }

  // ----------------------------------------------------------- dotted names

  function Dots(name: string): nat {
    if name == "" then 0 else Dots(name[..|name| - 1]) + if name[|name| - 1] == '.' then 1 else 0
  }

  /** `name.rpartition(".")`, the part before the last dot. */
  function ParentName(name: string): string {
    if name == "" then "" else if name[|name| - 1] == '.' then name[..|name| - 1] else ParentName(name[..|name| - 1])
  }

  /** `name.rpartition(".")`, the part after the last dot. */
  function LastName(name: string): string {
    if name == "" || name[|name| - 1] == '.' then "" else LastName(name[..|name| - 1]) + [name[|name| - 1]]
  }

  lemma {:induction false} ParentHasFewerDots(name: string)
    ensures if Dots(name) == 0 then ParentName(name) == "" && LastName(name) == name
            else Dots(ParentName(name)) == Dots(name) - 1 && name == ParentName(name) + "." + LastName(name)
  {
    if name != "" {
      ParentHasFewerDots(name[..|name| - 1]);
      assert name == name[..|name| - 1] + [name[|name| - 1]];
    }
  }

  // ---------------------------------------------------------------- rollback

  predicate DeepestFirst(names: seq<string>) {
    forall i, j | 0 <= i < j < |names| :: Dots(names[i]) >= Dots(names[j])
  }

  /** `sorted(names, key=dots, reverse=True)`, one name at a time. */
  function Insert(name: string, names: seq<string>): seq<string> {
    if names == [] || Dots(name) > Dots(names[0]) then [name] + names else [names[0]] + Insert(name, names[1..])
  }

  lemma {:induction false} InsertSorted(name: string, names: seq<string>)
    requires DeepestFirst(names)
    ensures DeepestFirst(Insert(name, names)) && forall n :: n in Insert(name, names) <==> n == name || n in names
  {
    hide Dots;
    if names != [] && !(Dots(name) > Dots(names[0])) {
      var rest := names[1..];
      assert names == [names[0]] + rest;
      InsertSorted(name, rest);
      assert Insert(name, names) == [names[0]] + Insert(name, rest);
      forall j | 0 <= j < |Insert(name, rest)| ensures Dots(Insert(name, rest)[j]) <= Dots(names[0]) {
        assert Insert(name, rest)[j] in Insert(name, rest);
      }
    }
  }

  /** Pop one name, and clear the attribute of its parent if it is this module. */
  function Remove(t: Table, name: string): Table {
    if name !in t.names then t
    else
      var removed := t.names[name];
      var names := t.names - {name};
      var parent := ParentName(name);
      if parent in names && (names[parent], LastName(name)) in t.attributes
        && t.attributes[(names[parent], LastName(name))] == removed
      then t.(names := names, attributes := t.attributes - {(names[parent], LastName(name))})
      else t.(names := names)
  }

  function RemoveAll(t: Table, names: seq<string>): Table
    decreases |names|
  {
    if names == [] then t else RemoveAll(Remove(t, names[0]), names[1..])
  }

  /** The names of the package that are new since `before`. */
  function Added(before: Table, after: Table, package: string): set<string> {
    set n | n in after.names && InSlice(package, n) && n !in before.names
  }

  /** `order` lists the added names, deepest first. */
  ghost predicate Orders(order: seq<string>, added: set<string>) {
    DeepestFirst(order) && forall n :: n in order <==> n in added
  }

  // ------------------------------------------------------------------ import

  /** The table in which the module body runs. */
  function Entered(t: Table, q: Request): Table {
    var packaged := if q.package in t.names then t.names else t.names[q.package := q.newPackage];
    t.(names := if q.hasLoader then packaged[Qualified(q) := q.newModule] else packaged)
  }

  predicate Cached(t: Table, q: Request) {
    && Qualified(q) in t.names && t.names[Qualified(q)] in t.files
    && t.files[t.names[Qualified(q)]] == q.path
  }

  /** The table when the import failed, before anything is taken back. */
  function Failed(t: Table, q: Request): Table {
    if q.hasLoader then q.execute(Entered(t, q)).table else Entered(t, q)
  }

  predicate Fails(t: Table, q: Request) {
    !Cached(t, q) && (!q.hasLoader || !q.execute(Entered(t, q)).ok)
  }

  /** The import, given the order in which added names are removed. */
  function Import(t: Table, q: Request, order: seq<string>): Imported {
    if Cached(t, q) then Imported(t, Some(t.names[Qualified(q)]))
    else if Fails(t, q) then Imported(RemoveAll(Failed(t, q), order), None)
    else Imported(q.execute(Entered(t, q)).table, Some(q.newModule))
  }

  // ---------------------------------------------------------------- theorems

  lemma {:induction false} RemoveAllNames(t: Table, names: seq<string>)
    ensures var r := RemoveAll(t, names);
            && (forall n :: n in r.names <==> n in t.names && n !in names)
            && (forall n | n in r.names :: r.names[n] == t.names[n])
            && (forall a | a in r.attributes :: a in t.attributes && r.attributes[a] == t.attributes[a])
            && r.files == t.files
    decreases |names|
  {
    hide ParentName, LastName;
    if names != [] {
      RemoveAllNames(Remove(t, names[0]), names[1..]);
      assert names == [names[0]] + names[1..];
    }
  }

  /**
   * A failed import leaves no new name in the package's part of the table, and
   * takes away nothing else: every other name is as the module body left it.
   */
  lemma FailureLeavesNoNewName(t: Table, q: Request, order: seq<string>)
    requires Fails(t, q) && Orders(order, Added(t, Failed(t, q), q.package))
    ensures var r := Import(t, q, order);
            && r.loaded.None?
            && (forall n | InSlice(q.package, n) :: n in r.table.names <==> n in t.names && n in Failed(t, q).names)
            && (forall n | !InSlice(q.package, n) :: n in r.table.names <==> n in Failed(t, q).names)
            && (forall n | n in r.table.names :: r.table.names[n] == Failed(t, q).names[n])
  {
    hide InSlice;
    RemoveAllNames(Failed(t, q), order);
  }

  /**
   * The module body runs in a table that holds the new module under its full name, and
   * the package, which is a new one only if there was none.
   */
  lemma BodyRunsIn(t: Table, q: Request)
    requires q.hasLoader && Qualified(q) != q.package
    ensures var r := Entered(t, q);
            && r.attributes == t.attributes && r.files == t.files
            && r.names.Keys == t.names.Keys + {q.package, Qualified(q)}
            && r.names[Qualified(q)] == q.newModule
            && r.names[q.package] == (if q.package in t.names then t.names[q.package] else q.newPackage)
            && forall n | n in t.names && n != Qualified(q) :: r.names[n] == t.names[n]
  {
  }

  /**
   * What an import that succeeds returns. A module that the table holds for the same file is
   * returned as it is, and nothing runs. Otherwise the body ran and returned normally, the
   * new module is returned, and the table is as the body left it; it then holds the returned
   * module under the requested name iff the body has left that name alone.
   */
  lemma SuccessReturns(t: Table, q: Request, order: seq<string>)
    ensures var r := Import(t, q, order);
            var held := Qualified(q) in t.names && t.names[Qualified(q)] in t.files && t.files[t.names[Qualified(q)]] == q.path;
            var run := q.execute(Entered(t, q));
            && (r.loaded.Some? <==> held || (q.hasLoader && run.ok))
            && (held ==> r == Imported(t, Some(t.names[Qualified(q)])))
            && (!held && r.loaded.Some? ==>
                  && r == Imported(run.table, Some(q.newModule))
                  && (Qualified(q) in r.table.names && r.table.names[Qualified(q)] == r.loaded.value <==>
                        Qualified(q) in run.table.names && run.table.names[Qualified(q)] == q.newModule))
  {
  }

  /** Without a loader nothing runs, and a package that was made for the import is taken back. */
  lemma NoLoaderNoImport(t: Table, q: Request)
    requires !q.hasLoader && !Cached(t, q)
    ensures var r := Import(t, q, if q.package in t.names then [] else [q.package]);
            r.loaded.None? && r.table.names == t.names && r.table.files == t.files
  {
    hide ParentName, LastName;
    if q.package !in t.names {
      assert RemoveAll(Entered(t, q), [q.package]) == Remove(Entered(t, q), q.package);
      assert t.names[q.package := q.newPackage] - {q.package} == t.names;
    }
  }

  /** A module that was imported is returned again, and its body does not run a second time. */
  lemma ImportedAgain(t: Table, q: Request, order: seq<string>, q2: Request, order2: seq<string>)
    requires var r := Import(t, q, order);
             && r.loaded.Some? && Qualified(q) in r.table.names && r.table.names[Qualified(q)] == r.loaded.value
             && r.loaded.value in r.table.files && r.table.files[r.loaded.value] == q.path
    requires q2.package == q.package && q2.stem == q.stem && q2.path == q.path
    ensures var r := Import(t, q, order);
            Import(r.table, q2, order2) == r
  {
  }

  /** The module body only added names. */
  predicate OnlyAdds(before: Table, after: Table) {
    forall n | n in before.names :: n in after.names && after.names[n] == before.names[n]
  }

  /**
   * If the module body only adds names, then after a failed import the package's
   * part of the table is exactly what it was iff the imported module was not in
   * the table. A stale module of that name stays replaced by the failed one.
   */
  lemma SliceRestoredIff(t: Table, q: Request, order: seq<string>)
    requires Fails(t, q) && q.hasLoader && Orders(order, Added(t, Failed(t, q), q.package))
    requires OnlyAdds(Entered(t, q), Failed(t, q))
    requires forall n | n in t.names :: t.names[n] != q.newModule
    ensures var r := Import(t, q, order).table;
            && (forall n | InSlice(q.package, n) :: n in r.names <==> n in t.names)
            && ((forall n | InSlice(q.package, n) && n in t.names :: r.names[n] == t.names[n]) <==> Qualified(q) !in t.names)
  {
    hide Added;
    AddedAre(t, Failed(t, q), q.package);
    RemoveAllNames(Failed(t, q), order);
    var r := Import(t, q, order).table;
    assert InSlice(q.package, Qualified(q));
    assert Qualified(q) != q.package;
    if Qualified(q) in t.names {
      assert Entered(t, q).names[Qualified(q)] == q.newModule;
      assert r.names[Qualified(q)] == q.newModule;
    }
  }

  lemma AddedAre(before: Table, after: Table, package: string)
    ensures forall n :: n in Added(before, after, package) <==> n in after.names && InSlice(package, n) && n !in before.names
  {
  }

  /** The attribute by which the parent package of a module in the table names it. */
  predicate OwnAttribute(t: Table, name: string, key: (ModuleId, string)) {
    ParentName(name) in t.names && key == (t.names[ParentName(name)], LastName(name))
  }

  predicate Maps(t: Table, key: (ModuleId, string), value: ModuleId) {
    key in t.attributes && t.attributes[key] == value
  }

  /** Some of these modules is `value`, and `key` is how its parent names it. */
  predicate Cleared(t: Table, names: seq<string>, key: (ModuleId, string), value: ModuleId) {
    exists i | 0 <= i < |names| :: names[i] in t.names && t.names[names[i]] == value && OwnAttribute(t, names[i], key)
  }

  lemma RemoveMaps(t: Table, name: string, key: (ModuleId, string), value: ModuleId)
    requires name != ""
    ensures Maps(Remove(t, name), key, value) <==> Maps(t, key, value) && !Cleared(t, [name], key, value)
  {
    hide LastName, Dots;
    NotItsOwnParent(name);
    assert Cleared(t, [name], key, value) <==> name in t.names && t.names[name] == value && OwnAttribute(t, name, key) by {
      assert [name][0] == name;
    }
  }

  lemma {:induction false} NotItsOwnParent(name: string)
    requires name != ""
    ensures ParentName(name) != name
  {
    ParentHasFewerDots(name);
  }

  /** No module is removed before one that it is the parent of. */
  lemma ParentsStay(t: Table, names: seq<string>, key: (ModuleId, string), value: ModuleId)
    requires DeepestFirst(names) && "" !in names && names != []
    ensures Cleared(t, names, key, value) <==> Cleared(t, [names[0]], key, value) || Cleared(Remove(t, names[0]), names[1..], key, value)
  {
    hide LastName, Dots, ParentName;
    var first, rest, t' := names[0], names[1..], Remove(t, names[0]);
    assert [first][0] == first;
    forall i | 0 <= i < |names| ensures ParentName(names[i]) != first {
      ParentHasFewerDots(names[i]);
      assert names[i] in names;
      assert first in names;
    }
    forall i | 0 <= i < |rest| ensures rest[i] == names[i + 1] {
    }
    if i :| 0 <= i < |names| && names[i] in t.names && t.names[names[i]] == value && OwnAttribute(t, names[i], key) {
      if names[i] != first {
        assert rest[i - 1] in t'.names && t'.names[rest[i - 1]] == value && OwnAttribute(t', rest[i - 1], key);
      }
    }
    if i :| 0 <= i < |rest| && rest[i] in t'.names && t'.names[rest[i]] == value && OwnAttribute(t', rest[i], key) {
      assert names[i + 1] in t.names && t.names[names[i + 1]] == value && OwnAttribute(t, names[i + 1], key);
    }
  }

  /** Removing modules clears exactly the attributes by which their parents name them. */
  lemma {:induction false} RemoveAllMaps(t: Table, names: seq<string>, key: (ModuleId, string), value: ModuleId)
    requires DeepestFirst(names) && "" !in names
    ensures Maps(RemoveAll(t, names), key, value) <==> Maps(t, key, value) && !Cleared(t, names, key, value)
    decreases |names|
  {
    hide Remove, Cleared, Dots;
    if names == [] {
      assert !Cleared(t, [], key, value) by { NothingCleared(t, key, value); }
    } else {
      assert names[0] in names;
      assert forall n | n in names[1..] :: n in names;
      RemoveMaps(t, names[0], key, value);
      RemoveAllMaps(Remove(t, names[0]), names[1..], key, value);
      ParentsStay(t, names, key, value);
    }
  }

  lemma NothingCleared(t: Table, key: (ModuleId, string), value: ModuleId)
    ensures !Cleared(t, [], key, value)
  {
  }

  /** Some module that the failed import added is `value`, and `key` is how its parent names it. */
  predicate ClearedByFailure(t: Table, q: Request, key: (ModuleId, string), value: ModuleId) {
    exists name | name in Added(t, Failed(t, q), q.package) ::
      Failed(t, q).names[name] == value && OwnAttribute(Failed(t, q), name, key)
  }

  /**
   * What a failed import leaves of the attributes: everything the module body left,
   * except the attributes by which the parents of added modules name these modules.
   */
  lemma AttributesAfterFailure(t: Table, q: Request, order: seq<string>, key: (ModuleId, string), value: ModuleId)
    requires Fails(t, q) && q.package != "" && Orders(order, Added(t, Failed(t, q), q.package))
    ensures Maps(Import(t, q, order).table, key, value) <==>
              Maps(Failed(t, q), key, value) && !ClearedByFailure(t, q, key, value)
  {
    hide Dots, ParentName, LastName, Failed;
    RemoveAllMaps(Failed(t, q), order, key, value);
    var failed := Failed(t, q);
    if Cleared(failed, order, key, value) {
      var i :| 0 <= i < |order| && order[i] in failed.names && failed.names[order[i]] == value && OwnAttribute(failed, order[i], key);
      assert order[i] in Added(t, failed, q.package);
    }
    if ClearedByFailure(t, q, key, value) {
      var name :| name in Added(t, failed, q.package) && failed.names[name] == value && OwnAttribute(failed, name, key);
      assert name in order;
      var i :| 0 <= i < |order| && order[i] == name;
      assert Cleared(failed, order, key, value);
    }
  }

  /** The attribute points at a module that the failed import removed from the table. */
  predicate Dangles(t: Table, q: Request, after: Table, key: (ModuleId, string)) {
    exists name | name in Added(t, Failed(t, q), q.package) :: Maps(after, key, Failed(t, q).names[name])
  }

  /** The module body had set the attribute, and it is how a parent names an added module that it points at. */
  predicate OwnNamed(t: Table, q: Request, key: (ModuleId, string)) {
    key in Failed(t, q).attributes && ClearedByFailure(t, q, key, Failed(t, q).attributes[key])
  }

  /**
   * Which attributes dangle after a failed import, whoever holds them: those that the
   * module body had set to an added module under another key than its parent's own
   * name for it.
   */
  lemma DanglesIff(t: Table, q: Request, order: seq<string>, key: (ModuleId, string))
    requires Fails(t, q) && q.package != "" && Orders(order, Added(t, Failed(t, q), q.package))
    ensures Dangles(t, q, Import(t, q, order).table, key) <==> Dangles(t, q, Failed(t, q), key) && !OwnNamed(t, q, key)
  {
    hide Failed, Fails, Import, ClearedByFailure, Orders;
    forall value ensures Maps(Import(t, q, order).table, key, value) <==>
        Maps(Failed(t, q), key, value) && !ClearedByFailure(t, q, key, value)
    {
      AttributesAfterFailure(t, q, order, key, value);
    }
  }

  /**
   * A failed import leaves no attribute that points at a removed module iff every
   * attribute that pointed at an added one was its parent's own name for it.
   */
  lemma NothingDanglesIff(t: Table, q: Request, order: seq<string>)
    requires Fails(t, q) && q.package != "" && Orders(order, Added(t, Failed(t, q), q.package))
    ensures (forall key :: !Dangles(t, q, Import(t, q, order).table, key)) <==>
              forall key :: Dangles(t, q, Failed(t, q), key) ==> OwnNamed(t, q, key)
  {
    hide Failed, Fails, Import, OwnNamed, Orders, Dangles;
    forall key
      ensures Dangles(t, q, Import(t, q, order).table, key) <==> Dangles(t, q, Failed(t, q), key) && !OwnNamed(t, q, key)
    {
      DanglesIff(t, q, order, key);
    }
  }

  /** After a failed import no parent package, retained or removed, has a removed module under its own name. */
  lemma OwnNamesAreCleared(t: Table, q: Request, order: seq<string>, name: string)
    requires Fails(t, q) && q.package != "" && Orders(order, Added(t, Failed(t, q), q.package))
    requires name in Added(t, Failed(t, q), q.package) && ParentName(name) in Failed(t, q).names
    ensures var failed := Failed(t, q);
            var r := Import(t, q, order).table;
            name !in r.names && !Maps(r, (failed.names[ParentName(name)], LastName(name)), failed.names[name])
  {
    hide Dots, ParentName, LastName, InSlice, Failed;
    RemoveAllNames(Failed(t, q), order);
    AttributesAfterFailure(t, q, order, (Failed(t, q).names[ParentName(name)], LastName(name)), Failed(t, q).names[name]);
  }

  // ------------------------------------------------------------ an attribute that dangles

  /** The package is there, and the module sets a second name for itself before it raises. */
  const ALIASED: Table := Table(map["p" := 1], map[], map[])

  const ALIASING: Request := Request("p", "m", "m.py", 3, 2, true,
    (table: Table) => Executed(Table(table.names, table.attributes[(1, "alias") := 2], table.files), false))

  lemma DottedNames()
    ensures ParentName("p.m") == "p" && LastName("p.m") == "m" && "p.m" != "p" && InSlice("p", "p.m")
  {
    assert "p.m"[..2] == "p." && "p."[..1] == "p";
    assert "p.m"[2] == 'm' && "p."[1] == '.';
    assert ParentName("p.") == "p" && LastName("p.") == "" && [] + ['m'] == "m";
    assert "p" + "." <= "p.m";
  }

  lemma AliasFails()
    ensures Fails(ALIASED, ALIASING)
    ensures Failed(ALIASED, ALIASING) == Table(map["p" := 1, "p.m" := 2], map[(1, "alias") := 2], map[])
  {
    assert Qualified(ALIASING) == "p.m";
    DottedNames();
  }

  lemma AliasRemoved()
    ensures var failed := Table(map["p" := 1, "p.m" := 2], map[(1, "alias") := 2], map[]);
            RemoveAll(failed, ["p.m"]) == failed.(names := map["p" := 1])
  {
    hide ParentName, LastName;
    var failed := Table(map["p" := 1, "p.m" := 2], map[(1, "alias") := 2], map[]);
    DottedNames();
    assert |"m"| != |"alias"|;
    assert failed.names - {"p.m"} == map["p" := 1];
    assert Remove(failed, "p.m") == failed.(names := map["p" := 1]);
    assert ["p.m"][1..] == [];
  }

  /** A retained package keeps an attribute that points at the removed module. */
  lemma AliasDangles()
    ensures Fails(ALIASED, ALIASING) && Orders(["p.m"], Added(ALIASED, Failed(ALIASED, ALIASING), ALIASING.package))
    ensures var r := Import(ALIASED, ALIASING, ["p.m"]).table;
            && r.names == map["p" := 1] && Maps(r, (1, "alias"), 2)
            && Dangles(ALIASED, ALIASING, r, (1, "alias"))
  {
    hide Failed, Fails, RemoveAll, InSlice;
    DottedNames();
    AliasFails();
    AliasRemoved();
    var failed := Failed(ALIASED, ALIASING);
    assert Added(ALIASED, failed, "p") == {"p.m"};
    assert failed.names["p.m"] == 2;
  }
}
