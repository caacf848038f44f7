/**
 Relations and unresolved calls (`code_index/relation_resolver.py`, and the
 parts of `code_index/pipeline.py` that delete relations), as functions from
 tables to tables. `IndexStore` computes the same tables row by row.
 */
module Relations {
  import opened Options
  import opened FileIndex
  import opened Resolver

  /** The table of relations has at most one row for a source, target and kind. */
  datatype Edge = Edge(src: nat, dst: nat, kind: string)

  /** A row of `unresolved_calls`; `open` while it has no `resolved_at`. */
  datatype OpenCall = OpenCall(file: Path, src: Uid, kind: string, candidates: seq<string>, open: bool)

  datatype Graph = Graph(edges: set<Edge>, calls: seq<OpenCall>)

  /** A relation of the current parse whose target is known by name only. */
  datatype Pending = Pending(file: Path, src: Uid, kind: string, candidates: seq<string>)

  /** What resolution looks at: the symbol table, the two queries on it, and the re-exports. */
  datatype Scope = Scope(symbols: Symbols, lookup: Lookup, reexports: Reexports)

  const PARSED_KINDS := {"calls", "imports", "inherits", "contains"}

  function LiveSource(symbols: Symbols, u: Uid): Option<nat> {
    if u in symbols && !symbols[u].deleted then Some(symbols[u].pk) else None
  }

  /** Where the candidates lead; a relation to itself leads nowhere. */
  function Target(scope: Scope, candidates: seq<string>, src: nat): Option<nat> {
    var dst := ByTier(scope.lookup, scope.reexports, candidates, []).0;
    if dst == Some(src) then None else dst
  }

  /* ---- one file ---- */

  /** `_clear_relations_for_file`. */
  function Cleared(g: Graph, occurrences: set<Occurrence>, f: Path): Graph {
    var pks := DefinedPksIn(occurrences, f);
    Graph((set e | e in g.edges && !(e.kind in PARSED_KINDS && e.src in pks)), CallsOutside(g.calls, f))
  }

  /** What `_tombstone_file` deletes. */
  function Orphaned(g: Graph, occurrences: set<Occurrence>, f: Path): Graph {
    var pks := DefinedPksIn(occurrences, f);
    Graph((set e | e in g.edges && e.src !in pks), CallsOutside(g.calls, f))
  }

  /** The relations the parse itself names; both ends must be declared by the file. */
  function Landed(symbols: Symbols, p: Parse): set<Edge>
    requires Declared(p) <= symbols.Keys
  {
    set r | r in p.relations && r.src in Declared(p) && r.dst in Declared(p) ::
      Edge(symbols[r.src].pk, symbols[r.dst].pk, r.kind)
  }

  /** What an event does to the relations, given the tables before it. */
  function GraphAfter(g: Graph, ix: Index, e: Event): Graph {
    match e
    case Parsed(f, p) =>
      UpsertAllDeclares(ix.symbols, ix.nextPk, p.symbols);
      var cleared := Cleared(g, ix.occurrences, f);
      cleared.(edges := cleared.edges + Landed(UpsertAll(ix.symbols, ix.nextPk, p.symbols).0, p))
    case Unreadable(f) => Orphaned(g, ix.occurrences, f)
    case Removed(f) => if f in ix.files then Orphaned(g, ix.occurrences, f) else g
    case _ => g
  }

  function CallsOutside(calls: seq<OpenCall>, f: Path): seq<OpenCall> {
    if calls == [] then []
    else
      var n := |calls| - 1;
      CallsOutside(calls[..n], f) + if calls[n].file == f then [] else [calls[n]]
  }

  /* ---- resolving ---- */

  /** One round of `_resolve_pending`. */
  function ResolvedOne(g: Graph, scope: Scope, rel: Pending): Graph {
    var src := LiveSource(scope.symbols, rel.src);
    if src.None? then g
    else
      var dst := Target(scope, rel.candidates, src.value);
      if dst.None? then g.(calls := g.calls + [OpenCall(rel.file, rel.src, rel.kind, rel.candidates, true)])
      else g.(edges := g.edges + {Edge(src.value, dst.value, rel.kind)})
  }

  function Resolved(g: Graph, scope: Scope, pending: seq<Pending>): Graph {
    if pending == [] then g
    else ResolvedOne(Resolved(g, scope, pending[..|pending| - 1]), scope, pending[|pending| - 1])
  }

  /* ---- repairing ---- */

  predicate DeadPk(symbols: Symbols, pk: nat) {
    exists u :: u in symbols && symbols[u].pk == pk && symbols[u].deleted
  }

  ghost predicate Dead(symbols: Symbols, e: Edge) {
    IsLivePk(symbols, e.src) && DeadPk(symbols, e.dst)
  }

  /** A row of the query for dead edges, with the file that the first definition of its source is in. */
  datatype DeadRow = DeadRow(edge: Edge, file: Path, src: Uid, canonical: string, display: string)

  ghost predicate Describes(r: DeadRow, ix: Index) {
    && LiveSource(ix.symbols, r.src) == Some(r.edge.src)
    && (exists v :: v in ix.symbols
                    && ix.symbols[v] == Symbol(r.edge.dst, r.canonical, r.display, true))
    && Defines(ix.occurrences, r.file, r.edge.src)
  }

  /** The query returns every dead edge once. */
  ghost predicate ListsDead(dead: seq<DeadRow>, ix: Index, edges: set<Edge>) {
    && (forall r | r in dead :: r.edge in edges && Describes(r, ix))
    && (forall i, j | 0 <= i < j < |dead| :: dead[i].edge != dead[j].edge)
    && (forall e | e in edges && Dead(ix.symbols, e) :: exists r :: r in dead && r.edge == e)
  }

  /** Some file defines the symbol: the subquery for the file of a repair row finds one. */
  ghost predicate HasHome(ix: Index, pk: nat) {
    exists f :: Defines(ix.occurrences, f, pk)
  }

  ghost predicate DeadHaveHomes(ix: Index, edges: set<Edge>) {
    forall e | e in edges && Dead(ix.symbols, e) :: HasHome(ix, e.src)
  }

  /** The row that keeps a dead edge for later. */
  function Queued(r: DeadRow): OpenCall {
    var names := if r.display == "" || r.display == r.canonical then [r.canonical] else [r.canonical, r.display];
    OpenCall(r.file, r.src, r.edge.kind, names, true)
  }

  function RepairedOne(g: Graph, r: DeadRow): Graph {
    Graph(g.edges - {r.edge}, g.calls + [Queued(r)])
  }

  /** `_repair_dead_edges`. */
  function Repaired(g: Graph, dead: seq<DeadRow>): Graph {
    if dead == [] then g else RepairedOne(Repaired(g, dead[..|dead| - 1]), dead[|dead| - 1])
  }

  /* ---- backfilling ---- */

  function Closed(calls: seq<OpenCall>, i: nat): seq<OpenCall>
    requires i < |calls|
  {
    calls[i := calls[i].(open := false)]
  }

  /** One round of `_backfill_unresolved`: the row closes when its source is gone or an edge lands. */
  function BackfilledOne(g: Graph, scope: Scope, i: nat): Graph
    requires i < |g.calls|
  {
    var call := g.calls[i];
    var src := LiveSource(scope.symbols, call.src);
    if src.None? then g.(calls := Closed(g.calls, i))
    else
      var dst := Target(scope, call.candidates, src.value);
      if dst.None? || Edge(src.value, dst.value, call.kind) in g.edges then g
      else Graph(g.edges + {Edge(src.value, dst.value, call.kind)}, Closed(g.calls, i))
  }

  function Backfilled(g: Graph, scope: Scope, rows: seq<nat>): (after: Graph)
    requires forall k | 0 <= k < |rows| :: rows[k] < |g.calls|
    ensures |after.calls| == |g.calls|
  {
    if rows == [] then g
    else BackfilledOne(Backfilled(g, scope, rows[..|rows| - 1]), scope, rows[|rows| - 1])
  }

  const FILTER_LIMIT := 100

  /** Whether the query of the backfill returns the row: `names` restricts it unless there are too many of them. */
  predicate Wanted(call: OpenCall, names: Option<set<string>>, mentions: (OpenCall, string) -> bool) {
    && call.open
    && (names.None? || |names.value| > FILTER_LIMIT || exists name :: name in names.value && mentions(call, name))
  }

  /** The rows of that query, in order. */
  function Selected(calls: seq<OpenCall>, names: Option<set<string>>, mentions: (OpenCall, string) -> bool)
    : (rows: seq<nat>)
    ensures forall k | 0 <= k < |rows| :: rows[k] < |calls|
  {
    if calls == [] then []
    else
      var n := |calls| - 1;
      Selected(calls[..n], names, mentions) + if Wanted(calls[n], names, mentions) then [n] else []
  }

  /* ---- the last transaction of a reindex ---- */

  /** Why a reindex backfills, and over which rows (`code_index/pipeline.py`). */
  datatype Occasion = Occasion(force: bool, symbolsRemoved: bool, before: nat, after: nat, newNames: set<string>)

  predicate Backfills(o: Occasion, queued: nat) {
    o.force || o.after > o.before || o.symbolsRemoved || queued > 0
  }

  function NameFilter(o: Occasion, queued: nat): Option<set<string>> {
    if o.force || o.symbolsRemoved || queued > 0 || o.before == 0 then None else Some(o.newNames)
  }

  function FinalPass(g: Graph, scope: Scope, pending: seq<Pending>, dead: seq<DeadRow>, o: Occasion,
                     mentions: (OpenCall, string) -> bool): Graph
  {
    var repaired := Repaired(Resolved(g, scope, pending), dead);
    if Backfills(o, |dead|)
    then Backfilled(repaired, scope, Selected(repaired.calls, NameFilter(o, |dead|), mentions))
    else repaired
  }
}
