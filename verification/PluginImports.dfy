/** `import_module_from_path` with relative imports: the table changes in place. */
module PluginImports {
  import opened Lifecycle
  import opened ModuleTable

  class SysModules {
    var table: Table

    constructor (table: Table)
      ensures this.table == table
    {
      this.table := table;
    }

    /** Remove the names that a failed import added to the package, children first. */
    method TakeBack(before: Table, package: string) returns (ghost order: seq<string>)
      modifies this
      ensures Orders(order, Added(before, old(table), package))
      ensures table == RemoveAll(old(table), order)
    {
      var todo := Added(before, table, package);
      var sorted: seq<string> := [];
      ghost var taken: set<string> := {};
      while todo != {}
        invariant taken !! todo && taken + todo == Added(before, table, package) && table == old(table)
        invariant DeepestFirst(sorted) && forall n :: n in sorted <==> n in taken
        decreases |todo|
      {
        var name :| name in todo;
        InsertSorted(name, sorted);
        sorted := Insert(name, sorted);
        taken := taken + {name};
        todo := todo - {name};
      }
      order := sorted;
      assert sorted[0..] == sorted;
      for i := 0 to |sorted|
        invariant RemoveAll(old(table), sorted) == RemoveAll(table, sorted[i..])
      {
        assert sorted[i..][0] == sorted[i] && sorted[i..][1..] == sorted[i + 1..];
        table := Remove(table, sorted[i]);
      }
      assert sorted[|sorted|..] == [];
    }

    method ImportModule(q: Request) returns (loaded: Option<ModuleId>, ghost order: seq<string>)
      modifies this
      ensures Fails(old(table), q) ==> Orders(order, Added(old(table), Failed(old(table), q), q.package))
      ensures Imported(table, loaded) == Import(old(table), q, order)
    {
      order := [];
      var qualified := q.package + "." + q.stem;
      if qualified in table.names && table.names[qualified] in table.files && table.files[table.names[qualified]] == q.path {
        return Some(table.names[qualified]), [];
      }
      var before := table;
      if q.package !in table.names {
        table := table.(names := table.names[q.package := q.newPackage]);
      }
      var ok := q.hasLoader;
      if ok {
        table := table.(names := table.names[qualified := q.newModule]);
        var executed := q.execute(table);
        table, ok := executed.table, executed.ok;
      }
      if ok {
        return Some(q.newModule), [];
      }
      order := TakeBack(before, q.package);
      loaded := None;
    }
  }
}
