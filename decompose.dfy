/**
 * The CTE decomposition engine of decompose.py (class SQLDecomposer): one
 * `CREATE OR REPLACE TEMP TABLE` step per top-level CTE, then a FINAL_RESULT
 * step holding the statement without its WITH clause, ordered so that every
 * step comes after the CTEs it reads.
 *
 * The SQL parser is not modelled: a parsed statement arrives as its CTEs
 * (alias, the names of the tables each body reads, the rendered body), the
 * table names read by its first SELECT node, and its rendering with the
 * WITH clause removed.
 */
module Decompose {
  import opened Wrappers
  import opened Seqs
  import opened TopoSort

  /** The graph node that stands for the outer query. */
  const FinalNode: string := "__FINAL__"
  /** The name of the plan step that runs the outer query. */
  const FinalStepName: string := "FINAL_RESULT"

  /** One top-level CTE: alias verbatim, every table name its body reads, the body rendered as SQL. */
  datatype Cte = Cte(alias: string, tableRefs: seq<string>, body: string)

  /**
   * A parsed statement. `selectRefs` is None when the tree has no SELECT node,
   * otherwise the table names that node reads. `strippedSql` is the statement
   * rendered from a copy of the tree whose WITH clause was removed.
   */
  datatype Query = Query(ctes: seq<Cte>, selectRefs: Option<seq<string>>, strippedSql: string)

  /** A single decomposed query step. */
  datatype DecomposedQuery = DecomposedQuery(name: string, sql: string, dependencies: seq<string>)

  // ---------------------------------------------------------------------
  // What the decomposer computes, as functions of the parsed statement
  // ---------------------------------------------------------------------

  function Aliases(cs: seq<Cte>): (r: seq<string>)
    ensures |r| == |cs| && forall i | 0 <= i < |cs| :: r[i] == cs[i].alias
  {
    seq(|cs|, i requires 0 <= i < |cs| => cs[i].alias)
  }

  /** `cte_set`: the declared aliases. */
  function AliasSet(cs: seq<Cte>): set<string> {
    set i | 0 <= i < |cs| :: cs[i].alias
  }

  /** The position of the last CTE declared with alias `a`. */
  function LastAliasIndex(cs: seq<Cte>, a: string): (i: nat)
    requires a in AliasSet(cs)
    ensures i < |cs| && cs[i].alias == a
    ensures forall j | i < j < |cs| :: cs[j].alias != a
  {
    var n := |cs| - 1;
    if cs[n].alias == a then n
    else
      assert a in AliasSet(cs[..n]) by {
        var i :| 0 <= i < |cs| && cs[i].alias == a;
        assert cs[..n][i] == cs[i];
      }
      LastAliasIndex(cs[..n], a)
  }

  /** The CTE that the decomposer keeps for alias `a`: the last one declared with it. */
  function LastCte(cs: seq<Cte>, a: string): Cte
    requires a in AliasSet(cs)
  {
    cs[LastAliasIndex(cs, a)]
  }

  /** `_ctes`: alias to body, filled in declaration order. */
  function CteBodies(cs: seq<Cte>): map<string, string> {
    if |cs| == 0 then map[]
    else CteBodies(cs[..|cs| - 1])[cs[|cs| - 1].alias := cs[|cs| - 1].body]
  }

  /** The table names in `refs` that are in `names`, in order, repeats kept. */
  function KeepDeclared(refs: seq<string>, names: set<string>): (r: seq<string>)
    ensures forall i | 0 <= i < |r| :: r[i] in names
  {
    if |refs| == 0 then []
    else KeepDeclared(refs[..|refs| - 1], names) + if refs[|refs| - 1] in names then [refs[|refs| - 1]] else []
  }

  /** `list(set(deps))` for one CTE: the other declared CTEs its body reads. */
  function CteDependencies(c: Cte, names: set<string>): seq<string> {
    Dedup(KeepDeclared(c.tableRefs, names - {c.alias}))
  }

  /** The dependency lists of the CTEs, filled in declaration order. */
  function CteDependencyMap(cs: seq<Cte>, names: set<string>): map<string, seq<string>> {
    if |cs| == 0 then map[]
    else CteDependencyMap(cs[..|cs| - 1], names)[cs[|cs| - 1].alias := CteDependencies(cs[|cs| - 1], names)]
  }

  /** `_dependencies`: every CTE's list, then the outer query's under FinalNode when a SELECT exists. */
  function Dependencies(q: Query): map<string, seq<string>> {
    var names := AliasSet(q.ctes);
    var m := CteDependencyMap(q.ctes, names);
    match q.selectRefs
    case None => m
    case Some(refs) => m[FinalNode := Dedup(KeepDeclared(refs, names))]
  }

  function ElementSet(s: seq<string>): set<string> {
    set i | 0 <= i < |s| :: s[i]
  }

  /** The graph handed to the sort: each list as a set, plus every CTE as a node. */
  function SortGraph(q: Query): Graph {
    var deps := Dependencies(q);
    var base := map k | k in deps :: ElementSet(deps[k]);
    base + map n | n in AliasSet(q.ctes) && n !in base :: {}
  }

  /** The statement that materialises one CTE. */
  function TempTableSql(name: string, body: string): string {
    "CREATE OR REPLACE TEMP TABLE " + name + " AS\n" + body
  }

  /** `deps.get(name, [])` */
  function DepsOf(deps: map<string, seq<string>>, name: string): seq<string> {
    if name in deps then deps[name] else []
  }

  /** The steps emitted for one node of the execution order. */
  function StepFor(name: string, bodies: map<string, string>, deps: map<string, seq<string>>, finalSql: string)
    : seq<DecomposedQuery>
  {
    if name == FinalNode then [DecomposedQuery(FinalStepName, finalSql, DepsOf(deps, FinalNode))]
    else if name in bodies then [DecomposedQuery(name, TempTableSql(name, bodies[name]), DepsOf(deps, name))]
    else []
  }

  /** `_queries`: the steps of the nodes of `order`, in that order. */
  function Plan(order: seq<string>, bodies: map<string, string>, deps: map<string, seq<string>>, finalSql: string)
    : seq<DecomposedQuery>
  {
    if |order| == 0 then []
    else Plan(order[..|order| - 1], bodies, deps, finalSql) + StepFor(order[|order| - 1], bodies, deps, finalSql)
  }

  // ---------------------------------------------------------------------
  // The decomposer object
  // ---------------------------------------------------------------------

  class SQLDecomposer {
    const parsed: Query
    /** `_ctes`, with its key order kept in `cteNames` (a Python dict remembers insertion order). */
    var ctes: map<string, string>
    var cteNames: seq<string>
    var dependencies: map<string, seq<string>>
    var queries: seq<DecomposedQuery>
    /** The order the sort returned, recorded for the specification. */
    ghost var execOrder: seq<string>

    /** What a finished constructor guarantees. */
    ghost predicate Valid()
      reads this
    {
      && ctes == CteBodies(parsed.ctes)
      && cteNames == Dedup(Aliases(parsed.ctes))
      && dependencies == Dependencies(parsed)
      && IsTopoOrder(SortGraph(parsed), execOrder)
      && queries == Plan(execOrder, ctes, dependencies, parsed.strippedSql)
    }

    /** The fields as `__init__` sets them before parsing. */
    constructor Empty(parsed: Query)
      ensures this.parsed == parsed
      ensures ctes == map[] && cteNames == [] && dependencies == map[] && queries == []
    {
      this.parsed := parsed;
      ctes := map[];
      cteNames := [];
      dependencies := map[];
      queries := [];
      execOrder := [];
    }

    /** `_parse`: fills the CTE table and the dependency map, then builds the plan. */
    method Parse() returns (r: Result<(), CycleError>)
      requires ctes == map[] && cteNames == [] && dependencies == map[] && queries == []
      modifies this
      ensures ctes == CteBodies(parsed.ctes) && cteNames == Dedup(Aliases(parsed.ctes))
      ensures dependencies == Dependencies(parsed)
      ensures r.Success? ==> Valid()
      ensures r.Failure? ==> forall order :: !IsTopoOrder(SortGraph(parsed), order)
    {
      var bodies, names, cteSet := ExtractCtes(parsed.ctes);
      ctes, cteNames := bodies, names;
      dependencies := BuildDependencies(parsed, cteSet);
      r := BuildQueries(cteSet);
    }

    /** `_build_queries`: sorts the graph and emits one step per node of the order. */
    method BuildQueries(cteSet: set<string>) returns (r: Result<(), CycleError>)
      requires cteSet == AliasSet(parsed.ctes)
      requires ctes == CteBodies(parsed.ctes) && cteNames == Dedup(Aliases(parsed.ctes))
      requires dependencies == Dependencies(parsed) && queries == []
      modifies this
      ensures ctes == old(ctes) && cteNames == old(cteNames) && dependencies == old(dependencies)
      ensures r.Success? ==> Valid()
      ensures r.Failure? ==> forall order :: !IsTopoOrder(SortGraph(parsed), order)
    {
      var graph := BuildGraph(parsed, cteSet, dependencies);
      SortGraphClosed(parsed);

      var sorted := Sort(graph);
      if sorted.Failure? {
        return Failure(sorted.error);
      }
      var order := sorted.value;
      execOrder := order;
      var finalSql := parsed.strippedSql;
      var k := 0;
      while k < |order|
        invariant k <= |order|
        invariant queries == Plan(order[..k], ctes, dependencies, finalSql)
        invariant ctes == old(ctes) && cteNames == old(cteNames) && dependencies == old(dependencies)
        invariant execOrder == order
      {
        PlanSnoc(order, k, ctes, dependencies, finalSql);
        var name := order[k];
        if name == FinalNode {
          queries := queries + [DecomposedQuery(FinalStepName, finalSql, DepsOf(dependencies, FinalNode))];
        } else if name in ctes {
          queries := queries + [DecomposedQuery(name, TempTableSql(name, ctes[name]), DepsOf(dependencies, name))];
        }
        k := k + 1;
      }
      assert order[..k] == order;
      return Success(());
    }

    /** `get_query`: the first step with the given name, if any. */
    method GetQuery(name: string) returns (r: Option<DecomposedQuery>)
      ensures r.None? <==> forall i | 0 <= i < |queries| :: queries[i].name != name
      ensures r.Some? ==> exists i :: 0 <= i < |queries| && queries[i] == r.value && r.value.name == name
                            && forall j | 0 <= j < i :: queries[j].name != name
    {
      var i := 0;
      while i < |queries|
        invariant i <= |queries|
        invariant forall j | 0 <= j < i :: queries[j].name != name
      {
        if queries[i].name == name {
          return Some(queries[i]);
        }
        i := i + 1;
      }
      return None;
    }
  }

  /** `SQLDecomposer(sql)`: the constructor either finishes or raises the sort's CycleError. */
  method NewDecomposer(parsed: Query) returns (r: Result<SQLDecomposer, CycleError>)
    ensures r.Success? ==> fresh(r.value) && r.value.parsed == parsed && r.value.Valid()
    ensures r.Failure? ==> forall order :: !IsTopoOrder(SortGraph(parsed), order)
  {
    var d := new SQLDecomposer.Empty(parsed);
    var outcome := d.Parse();
    if outcome.Failure? {
      return Failure(outcome.error);
    }
    return Success(d);
  }

  /** The CTE-extraction loop of `_parse`: the body table, its key order and `cte_set`. */
  method ExtractCtes(cs: seq<Cte>) returns (bodies: map<string, string>, names: seq<string>, cteSet: set<string>)
    ensures bodies == CteBodies(cs) && names == Dedup(Aliases(cs)) && cteSet == AliasSet(cs)
  {
    bodies, names, cteSet := map[], [], {};
    var i := 0;
    while i < |cs|
      invariant i <= |cs|
      invariant bodies == CteBodies(cs[..i])
      invariant names == Dedup(Aliases(cs[..i]))
      invariant cteSet == AliasSet(cs[..i])
    {
      ExtractStep(cs, i);
      if cs[i].alias !in bodies {
        names := names + [cs[i].alias];
      }
      bodies := bodies[cs[i].alias := cs[i].body];
      cteSet := cteSet + {cs[i].alias};
      i := i + 1;
    }
    assert cs[..i] == cs;
  }

  /** The dependency loops of `_parse`: each CTE's list, then the outer query's. */
  method BuildDependencies(q: Query, cteSet: set<string>) returns (depMap: map<string, seq<string>>)
    requires cteSet == AliasSet(q.ctes)
    ensures depMap == Dependencies(q)
  {
    var cs := q.ctes;
    depMap := map[];
    var i := 0;
    while i < |cs|
      invariant i <= |cs|
      invariant depMap == CteDependencyMap(cs[..i], cteSet)
    {
      var cte := cs[i];
      var deps: seq<string> := [];
      var j := 0;
      while j < |cte.tableRefs|
        invariant j <= |cte.tableRefs|
        invariant deps == KeepDeclared(cte.tableRefs[..j], cteSet - {cte.alias})
      {
        KeepDeclaredStep(cte.tableRefs, j, cteSet - {cte.alias});
        if cte.tableRefs[j] in cteSet && cte.tableRefs[j] != cte.alias {
          deps := deps + [cte.tableRefs[j]];
        }
        j := j + 1;
      }
      assert cte.tableRefs[..j] == cte.tableRefs;
      assert cs[..i + 1][..i] == cs[..i];
      depMap := depMap[cte.alias := Dedup(deps)];
      i := i + 1;
    }
    assert cs[..i] == cs;
    match q.selectRefs {
      case Some(refs) =>
        depMap := depMap[FinalNode := Dedup(KeepDeclared(refs, cteSet))];
      case None =>
    }
  }

  /** The graph-building loop of `_build_queries`: each list as a set, then every CTE as a node. */
  method BuildGraph(q: Query, cteSet: set<string>, deps: map<string, seq<string>>) returns (graph: Graph)
    requires cteSet == AliasSet(q.ctes) && deps == Dependencies(q)
    ensures graph == SortGraph(q)
  {
    graph := map k | k in deps :: ElementSet(deps[k]);
    ghost var base := graph;
    var pending := cteSet;
    while pending != {}
      invariant pending <= cteSet
      invariant forall k :: k in graph <==> k in base || k in cteSet - pending
      invariant forall k | k in graph :: graph[k] == if k in base then base[k] else {}
      decreases |pending|
    {
      var name :| name in pending;
      if name !in graph {
        graph := graph[name := {}];
      }
      pending := pending - {name};
    }
    SortGraphFrom(q, base, graph);
  }

  /** A graph holding the dependency sets, plus an empty set for every other alias, is SortGraph. */
  lemma SortGraphFrom(q: Query, base: Graph, graph: Graph)
    requires base == map k | k in Dependencies(q) :: ElementSet(Dependencies(q)[k])
    requires forall k :: k in graph <==> k in base || k in AliasSet(q.ctes)
    requires forall k | k in graph :: graph[k] == if k in base then base[k] else {}
    ensures graph == SortGraph(q)
  {
    var sg := SortGraph(q);
    assert sg == base + map n | n in AliasSet(q.ctes) && n !in base :: {};
    assert graph.Keys == sg.Keys;
    forall k | k in graph
      ensures graph[k] == sg[k]
    {
    }
  }


  // ---------------------------------------------------------------------
  // Properties of the CTE table and the dependency map
  // ---------------------------------------------------------------------

  /** A repeated alias keeps the body of its last declaration. */
  lemma {:induction false} CteBodiesLastWins(cs: seq<Cte>, i: nat)
    requires i < |cs|
    requires forall j | i < j < |cs| :: cs[j].alias != cs[i].alias
    ensures cs[i].alias in CteBodies(cs) && CteBodies(cs)[cs[i].alias] == cs[i].body
  {
    var n := |cs| - 1;
    if i < n {
      assert cs[..n][i] == cs[i];
      CteBodiesLastWins(cs[..n], i);
    }
  }

  /** The table entry of an alias is the body of LastCte. */
  lemma CteBodiesEntry(cs: seq<Cte>, a: string)
    requires a in AliasSet(cs)
    ensures a in CteBodies(cs) && CteBodies(cs)[a] == LastCte(cs, a).body
  {
    CteBodiesLastWins(cs, LastAliasIndex(cs, a));
  }

  /** `cte_names`: one name per distinct alias, the same names as the table's keys. */
  lemma CteNamesAreTableKeys(cs: seq<Cte>)
    ensures forall a :: a in Dedup(Aliases(cs)) <==> a in CteBodies(cs)
  {
    CteBodiesKeys(cs);
    forall a
      ensures a in Aliases(cs) <==> a in AliasSet(cs)
    {
      if a in Aliases(cs) {
        var i :| 0 <= i < |cs| && Aliases(cs)[i] == a;
      }
      if a in AliasSet(cs) {
        var i :| 0 <= i < |cs| && cs[i].alias == a;
        assert Aliases(cs)[i] == a;
      }
    }
  }

  lemma {:induction false} KeepDeclaredMembers(refs: seq<string>, names: set<string>, x: string)
    ensures x in KeepDeclared(refs, names) <==> x in refs && x in names
  {
    if |refs| > 0 {
      var n := |refs| - 1;
      KeepDeclaredMembers(refs[..n], names, x);
      assert refs == refs[..n] + [refs[n]];
    }
  }

  /** The dependency map has a key per CTE, and FinalNode exactly when a SELECT was found (or a CTE is so named). */
  lemma DependenciesKeys(q: Query)
    ensures Dependencies(q).Keys == AliasSet(q.ctes) + if q.selectRefs.Some? then {FinalNode} else {}
  {
    CteDependencyMapKeys(q.ctes, AliasSet(q.ctes));
  }

  /**
   * A CTE's list has no repeats and holds exactly the other declared aliases
   * that the body kept for that alias reads (exact, case-sensitive match).
   */
  lemma CteDependencyList(q: Query, a: string)
    requires a in AliasSet(q.ctes) && (a != FinalNode || q.selectRefs.None?)
    ensures a in Dependencies(q) && NoDups(Dependencies(q)[a])
    ensures forall d :: d in Dependencies(q)[a]
                    <==> d in AliasSet(q.ctes) && d != a && d in LastCte(q.ctes, a).tableRefs
  {
    var names := AliasSet(q.ctes);
    CteDependencyMapKeys(q.ctes, names);
    CteDependencyMapEntry(q.ctes, names, a);
    var c := LastCte(q.ctes, a);
    forall d
      ensures d in Dependencies(q)[a] <==> d in names && d != a && d in c.tableRefs
    {
      KeepDeclaredMembers(c.tableRefs, names - {a}, d);
    }
  }

  /** The outer query's list: no repeats, exactly the declared aliases its SELECT reads. */
  lemma FinalDependencyList(q: Query)
    requires q.selectRefs.Some?
    ensures FinalNode in Dependencies(q) && NoDups(Dependencies(q)[FinalNode])
    ensures forall d :: d in Dependencies(q)[FinalNode] <==> d in AliasSet(q.ctes) && d in q.selectRefs.value
  {
    forall d
      ensures d in Dependencies(q)[FinalNode] <==> d in AliasSet(q.ctes) && d in q.selectRefs.value
    {
      KeepDeclaredMembers(q.selectRefs.value, AliasSet(q.ctes), d);
    }
  }

  /** The sort graph: one node per key of the dependency map (so every CTE), each with its list as a set. */
  lemma SortGraphShape(q: Query)
    ensures SortGraph(q).Keys == Dependencies(q).Keys
    ensures forall n | n in Dependencies(q) :: SortGraph(q)[n] == ElementSet(Dependencies(q)[n])
  {
    DependenciesKeys(q);
  }

  // ---------------------------------------------------------------------
  // Properties of the plan
  // ---------------------------------------------------------------------

  /** The plan of a finished decomposer for `q` along `order`. */
  function PlanOf(q: Query, order: seq<string>): seq<DecomposedQuery> {
    Plan(order, CteBodies(q.ctes), Dependencies(q), q.strippedSql)
  }

  /** Every node of the order is FinalNode or a declared alias. */
  predicate PlanNodes(q: Query, order: seq<string>) {
    forall i | 0 <= i < |order| :: order[i] == FinalNode || order[i] in AliasSet(q.ctes)
  }

  /** The step a node becomes. */
  function NodeStep(q: Query, node: string): DecomposedQuery
    requires node == FinalNode || node in AliasSet(q.ctes)
  {
    if node == FinalNode then DecomposedQuery(FinalStepName, q.strippedSql, DepsOf(Dependencies(q), FinalNode))
    else DecomposedQuery(node, TempTableSql(node, LastCte(q.ctes, node).body), DepsOf(Dependencies(q), node))
  }

  /** The one step StepFor emits for a node that is FinalNode or in the table. */
  function StepOf(name: string, bodies: map<string, string>, deps: map<string, seq<string>>, finalSql: string): DecomposedQuery
    requires name == FinalNode || name in bodies
  {
    if name == FinalNode then DecomposedQuery(FinalStepName, finalSql, DepsOf(deps, FinalNode))
    else DecomposedQuery(name, TempTableSql(name, bodies[name]), DepsOf(deps, name))
  }

  /** `_queries` has one step per node when every node is FinalNode or in the table. */
  lemma {:induction false} PlanSteps(order: seq<string>, bodies: map<string, string>, deps: map<string, seq<string>>, finalSql: string)
    requires forall i | 0 <= i < |order| :: order[i] == FinalNode || order[i] in bodies
    ensures |Plan(order, bodies, deps, finalSql)| == |order|
    ensures forall i | 0 <= i < |order| :: Plan(order, bodies, deps, finalSql)[i] == StepOf(order[i], bodies, deps, finalSql)
  {
    if |order| > 0 {
      var n := |order| - 1;
      var init := order[..n];
      assert forall i | 0 <= i < n :: init[i] == order[i];
      PlanSteps(init, bodies, deps, finalSql);
      var plan, pre := Plan(order, bodies, deps, finalSql), Plan(init, bodies, deps, finalSql);
      assert plan == pre + [StepOf(order[n], bodies, deps, finalSql)];
      forall i | 0 <= i < |order|
        ensures plan[i] == StepOf(order[i], bodies, deps, finalSql)
      {
        if i < n {
          assert plan[i] == pre[i];
        }
      }
    }
  }

  /**
   * One step per node of the order: FINAL_RESULT with the WITH-stripped SQL
   * and the outer query's list for FinalNode; for a CTE its alias, the
   * statement materialising the body kept for it, and its list.
   */
  lemma PlanShape(q: Query, order: seq<string>)
    requires PlanNodes(q, order)
    ensures |PlanOf(q, order)| == |order|
    ensures forall i | 0 <= i < |order| :: PlanOf(q, order)[i] == NodeStep(q, order[i])
  {
    var bodies := CteBodies(q.ctes);
    CteBodiesKeys(q.ctes);
    PlanSteps(order, bodies, Dependencies(q), q.strippedSql);
    forall i | 0 <= i < |order|
      ensures PlanOf(q, order)[i] == NodeStep(q, order[i])
    {
      if order[i] != FinalNode {
        CteBodiesEntry(q.ctes, order[i]);
      }
    }
  }

  /** The nodes of the sort graph: every declared alias, and FinalNode exactly when a SELECT was found. */
  lemma SortGraphKeys(q: Query)
    ensures SortGraph(q).Keys == AliasSet(q.ctes) + if q.selectRefs.Some? then {FinalNode} else {}
  {
    SortGraphShape(q);
    DependenciesKeys(q);
  }

  lemma GraphNodes(q: Query)
    ensures forall n | n in SortGraph(q) :: n == FinalNode || n in AliasSet(q.ctes)
  {
    SortGraphKeys(q);
  }

  /** The step name a node becomes: FinalNode is renamed, a CTE keeps its alias. */
  function StepName(node: string): string {
    if node == FinalNode then FinalStepName else node
  }

  lemma PlanNames(q: Query, order: seq<string>)
    requires forall i | 0 <= i < |order| :: order[i] in SortGraph(q)
    ensures PlanNodes(q, order)
    ensures |PlanOf(q, order)| == |order|
    ensures forall i | 0 <= i < |order| :: PlanOf(q, order)[i].name == StepName(order[i])
    ensures forall i | 0 <= i < |order| :: PlanOf(q, order)[i].dependencies == DepsOf(Dependencies(q), order[i])
  {
    GraphNodes(q);
    PlanShape(q, order);
  }

  /** Every dependency of a step is the name of an earlier step: each temp table exists before it is read. */
  lemma PlanMaterializesBeforeUse(q: Query, order: seq<string>)
    requires FinalNode !in AliasSet(q.ctes)
    requires IsTopoOrder(SortGraph(q), order)
    ensures forall i, d | 0 <= i < |PlanOf(q, order)| && d in PlanOf(q, order)[i].dependencies ::
      exists j :: 0 <= j < i && PlanOf(q, order)[j].name == d
  {
    var plan := PlanOf(q, order);
    PlanNames(q, order);
    SortGraphShape(q);
    forall i, d | 0 <= i < |plan| && d in plan[i].dependencies
      ensures exists j :: 0 <= j < i && plan[j].name == d
    {
      var n := order[i];
      assert n in Dependencies(q);
      var k :| 0 <= k < |Dependencies(q)[n]| && Dependencies(q)[n][k] == d;
      CteDependencyListDeclared(q, n, k);
      assert d in SortGraph(q)[n];
      assert d in order[..i];
      var j :| 0 <= j < i && order[j] == d;
      assert plan[j].name == d;
    }
  }

  /** No two steps share a name. */
  lemma PlanStepNamesDistinct(q: Query, order: seq<string>)
    requires FinalNode !in AliasSet(q.ctes) && FinalStepName !in AliasSet(q.ctes)
    requires IsTopoOrder(SortGraph(q), order)
    ensures forall i, j | 0 <= i < j < |PlanOf(q, order)| :: PlanOf(q, order)[i].name != PlanOf(q, order)[j].name
  {
    var plan := PlanOf(q, order);
    PlanNames(q, order);
    forall i, j | 0 <= i < j < |plan|
      ensures plan[i].name != plan[j].name
    {
      assert order[i] != order[j];
      assert PlanNodes(q, order);
    }
  }

  /** The step names are the declared aliases, plus FINAL_RESULT exactly when a SELECT was found. */
  lemma PlanStepNamesComplete(q: Query, order: seq<string>)
    requires FinalNode !in AliasSet(q.ctes) && FinalStepName !in AliasSet(q.ctes)
    requires IsTopoOrder(SortGraph(q), order)
    ensures forall a :: (exists i :: 0 <= i < |PlanOf(q, order)| && PlanOf(q, order)[i].name == a)
                    <==> a in AliasSet(q.ctes) || (a == FinalStepName && q.selectRefs.Some?)
  {
    var plan := PlanOf(q, order);
    PlanNames(q, order);
    SortGraphKeys(q);
    forall a
      ensures (exists i :: 0 <= i < |plan| && plan[i].name == a)
          <==> a in AliasSet(q.ctes) || (a == FinalStepName && q.selectRefs.Some?)
    {
      if a in AliasSet(q.ctes) {
        assert a in SortGraph(q);
        var i :| 0 <= i < |order| && order[i] == a;
        assert plan[i].name == a;
      }
      if a == FinalStepName && q.selectRefs.Some? {
        assert FinalNode in SortGraph(q);
        var i :| 0 <= i < |order| && order[i] == FinalNode;
        assert plan[i].name == a;
      }
      if i :| 0 <= i < |plan| && plan[i].name == a {
        assert order[i] == FinalNode || order[i] in AliasSet(q.ctes);
      }
    }
  }

  /** With no CTEs and a SELECT, the plan is the single FINAL_RESULT step with no dependencies. */
  lemma ZeroCtesPlan(q: Query, order: seq<string>)
    requires q.ctes == [] && q.selectRefs.Some?
    requires IsTopoOrder(SortGraph(q), order)
    ensures PlanOf(q, order) == [DecomposedQuery(FinalStepName, q.strippedSql, [])]
  {
    SortGraphShape(q);
    DependenciesKeys(q);
    assert SortGraph(q).Keys == {FinalNode};
    OnlyElement(order, FinalNode);
    PlanShape(q, order);
    KeepDeclaredNone(q.selectRefs.value);
  }

  /** Two independent CTEs `a` and `b`, of which the outer SELECT reads only `a`. */
  function TwoCteQuery(a: string, b: string, bodyA: string, bodyB: string, finalSql: string): Query {
    Query([Cte(a, [], bodyA), Cte(b, [], bodyB)], Some([a]), finalSql)
  }

  /** Neither CTE reads a table, and the outer query's list is just `a`. */
  lemma TwoCteDependencies(a: string, b: string, bodyA: string, bodyB: string, finalSql: string)
    requires a != b && a != FinalNode && b != FinalNode
    ensures AliasSet(TwoCteQuery(a, b, bodyA, bodyB, finalSql).ctes) == {a, b}
    ensures Dependencies(TwoCteQuery(a, b, bodyA, bodyB, finalSql)) == map[a := [], b := [], FinalNode := [a]]
  {
    var q := TwoCteQuery(a, b, bodyA, bodyB, finalSql);
    var names := AliasSet(q.ctes);
    assert names == {a, b} by {
      assert q.ctes[0].alias == a && q.ctes[1].alias == b;
    }
    assert q.ctes[..1][..0] == [] && q.ctes[..1] == [q.ctes[0]];
    assert CteDependencies(q.ctes[0], names) == [] && CteDependencies(q.ctes[1], names) == [];
    assert CteDependencyMap(q.ctes[..1], names) == map[a := []];
    assert CteDependencyMap(q.ctes, names) == map[a := [], b := []];
    assert [a][..0] == [];
    assert KeepDeclared([a], names) == [a];
    assert Dedup([a]) == [a];
  }

  lemma TwoCteGraph(a: string, b: string, bodyA: string, bodyB: string, finalSql: string)
    requires a != b && a != FinalNode && b != FinalNode
    ensures AliasSet(TwoCteQuery(a, b, bodyA, bodyB, finalSql).ctes) == {a, b}
    ensures SortGraph(TwoCteQuery(a, b, bodyA, bodyB, finalSql)) == map[a := {}, b := {}, FinalNode := {a}]
  {
    var q := TwoCteQuery(a, b, bodyA, bodyB, finalSql);
    TwoCteDependencies(a, b, bodyA, bodyB, finalSql);
    SortGraphShape(q);
    var g := SortGraph(q);
    assert ElementSet([a]) == {a} by {
      assert [a][0] == a;
    }
    assert g[a] == {} && g[b] == {} && g[FinalNode] == {a};
    GraphOfThree(g, a, b);
  }

  /** A graph on exactly these three nodes with these edges is the displayed map. */
  lemma GraphOfThree(g: Graph, a: string, b: string)
    requires g.Keys == {a, b, FinalNode}
    requires a in g && b in g && FinalNode in g
    requires g[a] == {} && g[b] == {} && g[FinalNode] == {a}
    ensures g == map[a := {}, b := {}, FinalNode := {a}]
  {
  }

  /**
   * The sort does not pin FINAL_RESULT to the end: a CTE nobody reads may be
   * placed after it, and then the plan ends with that CTE's step.
   */
  lemma FinalStepNeedNotBeLast(a: string, b: string, bodyA: string, bodyB: string, finalSql: string)
    requires a != b && a != FinalNode && b != FinalNode
    ensures var q := TwoCteQuery(a, b, bodyA, bodyB, finalSql);
            var order := [a, FinalNode, b];
            && IsTopoOrder(SortGraph(q), order)
            && |PlanOf(q, order)| == 3
            && PlanOf(q, order)[1].name == FinalStepName
            && PlanOf(q, order)[2].name == b
  {
    var q := TwoCteQuery(a, b, bodyA, bodyB, finalSql);
    var order := [a, FinalNode, b];
    TwoCteGraph(a, b, bodyA, bodyB, finalSql);
    assert order[..1] == [a] && order[..2] == [a, FinalNode];
    assert IsTopoOrder(SortGraph(q), order);
    PlanNames(q, order);
    assert StepName(order[2]) == b;
  }

  /** A dependency cycle among distinct CTEs leaves no order, so the decomposer raises CycleError. */
  lemma CteCycleHasNoOrder(q: Query, c: seq<string>)
    requires FinalNode !in AliasSet(q.ctes)
    requires |c| >= 1 && forall k | 0 <= k < |c| :: c[k] in AliasSet(q.ctes)
    requires forall k {:trigger c[k]} | 0 <= k < |c| ::
      c[(k + 1) % |c|] != c[k] && c[(k + 1) % |c|] in LastCte(q.ctes, c[k]).tableRefs
    ensures forall order :: !IsTopoOrder(SortGraph(q), order)
  {
    var g := SortGraph(q);
    SortGraphShape(q);
    forall k | 0 <= k < |c|
      ensures c[k] in g && c[(k + 1) % |c|] in g[c[k]]
    {
      var next := c[(k + 1) % |c|];
      CteDependencyList(q, c[k]);
      assert next in Dependencies(q)[c[k]];
      var m :| 0 <= m < |Dependencies(q)[c[k]]| && Dependencies(q)[c[k]][m] == next;
    }
    CycleHasNoOrder(g, c);
  }

  // ---------------------------------------------------------------------
  // Helper facts about prefixes
  // ---------------------------------------------------------------------

  lemma PrefixStep(cs: seq<Cte>, i: nat)
    requires i < |cs|
    ensures cs[..i + 1][..i] == cs[..i] && cs[..i + 1][i] == cs[i]
    ensures AliasSet(cs[..i + 1]) == AliasSet(cs[..i]) + {cs[i].alias}
    ensures Aliases(cs[..i + 1]) == Aliases(cs[..i]) + [cs[i].alias]
  {
    var p, q := cs[..i + 1], cs[..i];
    forall a | a in AliasSet(p)
      ensures a in AliasSet(q) + {cs[i].alias}
    {
      var k :| 0 <= k < |p| && p[k].alias == a;
      if k < i { assert q[k] == p[k]; }
    }
    forall a | a in AliasSet(q)
      ensures a in AliasSet(p)
    {
      var k :| 0 <= k < |q| && q[k].alias == a;
      assert p[k] == q[k];
    }
    assert p[i] == cs[i];
  }

  lemma {:induction false} KeepDeclaredNone(refs: seq<string>)
    ensures KeepDeclared(refs, {}) == []
  {
    if |refs| > 0 {
      KeepDeclaredNone(refs[..|refs| - 1]);
    }
  }

  lemma {:induction false} NoDupsCard(s: seq<string>)
    requires NoDups(s)
    ensures |ElementSet(s)| == |s|
  {
    if |s| > 0 {
      var n := |s| - 1;
      NoDupsCard(s[..n]);
      assert ElementSet(s) == ElementSet(s[..n]) + {s[n]} by {
        forall y | y in ElementSet(s)
          ensures y in ElementSet(s[..n]) + {s[n]}
        {
          var i :| 0 <= i < |s| && s[i] == y;
          if i < n { assert s[..n][i] == y; }
        }
        forall y | y in ElementSet(s[..n])
          ensures y in ElementSet(s)
        {
          var i :| 0 <= i < n && s[..n][i] == y;
          assert s[i] == y;
        }
      }
      assert s[n] !in ElementSet(s[..n]);
    }
  }

  lemma OnlyElement(s: seq<string>, x: string)
    requires NoDups(s) && x in s && forall i | 0 <= i < |s| :: s[i] == x
    ensures s == [x]
  {
    NoDupsCard(s);
    assert ElementSet(s) == {x};
  }

  lemma KeepDeclaredStep(refs: seq<string>, j: nat, names: set<string>)
    requires j < |refs|
    ensures KeepDeclared(refs[..j + 1], names)
         == KeepDeclared(refs[..j], names) + if refs[j] in names then [refs[j]] else []
  {
    assert refs[..j + 1][..j] == refs[..j];
  }

  /** The plan of one more node of the order: that node's steps appended. */
  lemma PlanSnoc(order: seq<string>, k: nat, bodies: map<string, string>, deps: map<string, seq<string>>, finalSql: string)
    requires k < |order|
    ensures Plan(order[..k + 1], bodies, deps, finalSql)
            == Plan(order[..k], bodies, deps, finalSql) + StepFor(order[k], bodies, deps, finalSql)
  {
    assert order[..k + 1][..k] == order[..k];
  }

  /** One more CTE: its alias joins the table (last wins), the key order when new, and the set. */
  lemma ExtractStep(cs: seq<Cte>, i: nat)
    requires i < |cs|
    ensures CteBodies(cs[..i + 1]) == CteBodies(cs[..i])[cs[i].alias := cs[i].body]
    ensures Dedup(Aliases(cs[..i + 1]))
            == if cs[i].alias in CteBodies(cs[..i]) then Dedup(Aliases(cs[..i]))
               else Dedup(Aliases(cs[..i])) + [cs[i].alias]
    ensures AliasSet(cs[..i + 1]) == AliasSet(cs[..i]) + {cs[i].alias}
  {
    var p, x := cs[..i], cs[i].alias;
    PrefixStep(cs, i);
    var q := cs[..i + 1];
    assert q[..|q| - 1] == p && q[|q| - 1] == cs[i];
    CteBodiesKeys(p);
    AliasesCoverSet(p, x);
    DedupSnoc(Aliases(p), x);
  }

  lemma AliasesCoverSet(cs: seq<Cte>, x: string)
    ensures x in Aliases(cs) <==> x in AliasSet(cs)
  {
    if x in AliasSet(cs) {
      var k :| 0 <= k < |cs| && cs[k].alias == x;
      assert Aliases(cs)[k] == x;
    }
  }

  lemma {:induction false} CteBodiesKeys(cs: seq<Cte>)
    ensures CteBodies(cs).Keys == AliasSet(cs)
  {
    if |cs| > 0 {
      var n := |cs| - 1;
      CteBodiesKeys(cs[..n]);
      PrefixStep(cs, n);
      assert cs[..n + 1] == cs;
    }
  }

  lemma {:induction false} CteDependencyMapKeys(cs: seq<Cte>, names: set<string>)
    ensures CteDependencyMap(cs, names).Keys == AliasSet(cs)
  {
    if |cs| > 0 {
      var n := |cs| - 1;
      CteDependencyMapKeys(cs[..n], names);
      PrefixStep(cs, n);
      assert cs[..n + 1] == cs;
    }
  }

  /** The sort's graph is closed: every prerequisite is a declared CTE, hence a node. */
  lemma SortGraphClosed(q: Query)
    ensures Closed(SortGraph(q))
  {
    var names := AliasSet(q.ctes);
    var deps := Dependencies(q);
    var g := SortGraph(q);
    CteDependencyMapKeys(q.ctes, names);
    forall n | n in g
      ensures g[n] <= g.Keys
    {
      if n in deps {
        assert g[n] == ElementSet(deps[n]);
        forall d | d in g[n]
          ensures d in names
        {
          var k :| 0 <= k < |deps[n]| && deps[n][k] == d;
          CteDependencyListDeclared(q, n, k);
        }
      }
    }
  }

  /** Every entry of every dependency list is a declared alias. */
  lemma CteDependencyListDeclared(q: Query, n: string, k: nat)
    requires n in Dependencies(q) && k < |Dependencies(q)[n]|
    ensures Dependencies(q)[n][k] in AliasSet(q.ctes)
  {
    var names := AliasSet(q.ctes);
    var d := Dependencies(q)[n][k];
    if q.selectRefs.Some? && n == FinalNode {
      var refs := q.selectRefs.value;
      assert d in KeepDeclared(refs, names);
    } else {
      CteDependencyMapEntry(q.ctes, names, n);
      var c := LastCte(q.ctes, n);
      assert d in KeepDeclared(c.tableRefs, names - {c.alias});
    }
  }

  /** Each CTE's entry is the list computed from the last CTE declared with that alias. */
  lemma {:induction false} CteDependencyMapEntry(cs: seq<Cte>, names: set<string>, a: string)
    requires a in CteDependencyMap(cs, names)
    ensures a in AliasSet(cs)
    ensures CteDependencyMap(cs, names)[a] == CteDependencies(LastCte(cs, a), names)
  {
    CteDependencyMapKeys(cs, names);
    var n := |cs| - 1;
    if cs[n].alias != a {
      PrefixStep(cs, n);
      assert cs[..n + 1] == cs;
      CteDependencyMapEntry(cs[..n], names, a);
    }
  }
}
