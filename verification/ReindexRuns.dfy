/**
 Whole reindexes, one after the other: file events, and then the transaction
 that resolves, repairs and backfills (`code_index/pipeline.py`).
 */
module ReindexRuns {
  import opened Options
  import opened FileIndex
  import opened SymbolLaws
  import opened Resolver
  import opened Relations
  import opened RelationLaws

  datatype World = World(ix: Index, g: Graph)

  /**
   A reindex with what its queries returned: the symbol lookups, and the rows for dead edges. `dead` is None when the
   insert for one of them finds no file: then the last transaction fails and is rolled back.
   */
  datatype Reindex = Reindex(
    events: seq<Event>,
    lookup: Lookup,
    reexports: Reexports,
    pending: seq<Pending>,
    dead: Option<seq<DeadRow>>,
    occasion: Occasion,
    mentions: (OpenCall, string) -> bool)

  function Events(w: World, events: seq<Event>): World {
    if events == [] then w
    else
      var before, e := Events(w, events[..|events| - 1]), events[|events| - 1];
      World(After(before.ix, e), GraphAfter(before.g, before.ix, e))
  }

  function ScopeOf(w: World, r: Reindex): Scope {
    Scope(w.ix.symbols, r.lookup, r.reexports)
  }

  function Reindexed(w: World, r: Reindex): World {
    var touched := Events(w, r.events);
    if r.dead.None? then touched
    else touched.(g := FinalPass(touched.g, ScopeOf(touched, r), r.pending, r.dead.value, r.occasion, r.mentions))
  }

  function Worlds(runs: seq<Reindex>): World {
    if runs == [] then World(EMPTY, Graph({}, [])) else Reindexed(Worlds(runs[..|runs| - 1]), runs[|runs| - 1])
  }

  /** The edges that repair looks at. */
  function ResolvedEdges(w: World, r: Reindex): set<Edge> {
    Resolved(w.g, ScopeOf(w, r), r.pending).edges
  }

  /** Every reindex got what the tables of its final transaction answer. */
  ghost predicate Faithful(runs: seq<Reindex>, suffixOf: (string, string) -> bool) {
    runs == [] ||
    (var front, r := runs[..|runs| - 1], runs[|runs| - 1];
     var touched := Events(Worlds(front), r.events);
     && Faithful(front, suffixOf)
     && Sound(r.lookup, touched.ix.symbols, suffixOf)
     && match r.dead
        case Some(dead) => ListsDead(dead, touched.ix, ResolvedEdges(touched, r))
        case None => !DeadHaveHomes(touched.ix, ResolvedEdges(touched, r)))
  }

  /* ---- edges always have rows at both ends ---- */

  lemma KeptPksKeepEdges(before: Symbols, after: Symbols, edges: set<Edge>)
    requires KnownEdges(before, edges)
    requires forall u | u in before :: u in after && after[u].pk == before[u].pk
    ensures KnownEdges(after, edges)
  {
    forall e | e in edges
      ensures exists u :: u in after && after[u].pk == e.src
      ensures exists u :: u in after && after[u].pk == e.dst
    {
      var u :| u in before && before[u].pk == e.src;
      var v :| v in before && before[v].pk == e.dst;
      assert after[u].pk == e.src && after[v].pk == e.dst;
    }
  }

  lemma LandedAreKnown(ix: Index, f: Path, p: Parse)
    requires PksOk(ix.symbols, ix.nextPk)
    ensures var symbols := UpsertAll(ix.symbols, ix.nextPk, p.symbols).0;
            && Declared(p) <= symbols.Keys
            && KnownEdges(Applied(ix, f, p).symbols, Landed(symbols, p))
  {
    UpsertAllGrows(ix.symbols, ix.nextPk, p.symbols);
    var symbols := UpsertAll(ix.symbols, ix.nextPk, p.symbols).0;
    var after := Applied(ix, f, p).symbols;
    forall e | e in Landed(symbols, p)
      ensures exists u :: u in after && after[u].pk == e.src
      ensures exists u :: u in after && after[u].pk == e.dst
    {
      var r :| r in p.relations && r.src in Declared(p) && r.dst in Declared(p)
               && e == Edge(symbols[r.src].pk, symbols[r.dst].pk, r.kind);
      assert after[r.src].pk == e.src && after[r.dst].pk == e.dst;
    }
  }

  lemma EventKeepsKnown(w: World, e: Event)
    requires PksOk(w.ix.symbols, w.ix.nextPk) && KnownEdges(w.ix.symbols, w.g.edges)
    ensures KnownEdges(After(w.ix, e).symbols, GraphAfter(w.g, w.ix, e).edges)
  {
    StepKeepsKeys(w.ix, e);
    KeptPksKeepEdges(w.ix.symbols, After(w.ix, e).symbols, w.g.edges);
    if e.Parsed? {
      LandedAreKnown(Recorded(w.ix, e.file), e.file, e.parse);
    }
  }

  lemma {:induction false} EventsKeepKnown(w: World, events: seq<Event>)
    requires PksOk(w.ix.symbols, w.ix.nextPk) && KnownEdges(w.ix.symbols, w.g.edges)
    ensures var w' := Events(w, events); PksOk(w'.ix.symbols, w'.ix.nextPk) && KnownEdges(w'.ix.symbols, w'.g.edges)
  {
    if events != [] {
      var front := events[..|events| - 1];
      EventsKeepKnown(w, front);
      StepKeepsKeys(Events(w, front).ix, events[|events| - 1]);
      EventKeepsKnown(Events(w, front), events[|events| - 1]);
    }
  }

  lemma {:induction false} BackfillKeepsKnown(g: Graph, scope: Scope, rows: seq<nat>,
                                              suffixOf: (string, string) -> bool)
    requires forall k | 0 <= k < |rows| :: rows[k] < |g.calls|
    requires Sound(scope.lookup, scope.symbols, suffixOf) && KnownEdges(scope.symbols, g.edges)
    ensures KnownEdges(scope.symbols, Backfilled(g, scope, rows).edges)
  {
    if rows != [] {
      var n := |rows| - 1;
      BackfillKeepsKnown(g, scope, rows[..n], suffixOf);
      var candidates := Backfilled(g, scope, rows[..n]).calls[rows[n]].candidates;
      if ByTier(scope.lookup, scope.reexports, candidates, []).0.Some? {
        TargetIsLive(scope.lookup, scope.reexports, candidates, [], scope.symbols, suffixOf);
      }
    }
  }

  lemma {:induction false} RunsKeepKnown(runs: seq<Reindex>, suffixOf: (string, string) -> bool)
    requires Faithful(runs, suffixOf)
    ensures var w := Worlds(runs); PksOk(w.ix.symbols, w.ix.nextPk) && KnownEdges(w.ix.symbols, w.g.edges)
  {
    if runs != [] {
      var front, r := runs[..|runs| - 1], runs[|runs| - 1];
      RunsKeepKnown(front, suffixOf);
      EventsKeepKnown(Worlds(front), r.events);
      if r.dead.Some? {
        FinalPassKeepsKnown(Events(Worlds(front), r.events), r, suffixOf);
      }
    }
  }

  lemma FinalPassKeepsKnown(w: World, r: Reindex, suffixOf: (string, string) -> bool)
    requires KnownEdges(w.ix.symbols, w.g.edges) && Sound(r.lookup, w.ix.symbols, suffixOf) && r.dead.Some?
    ensures KnownEdges(w.ix.symbols,
                       FinalPass(w.g, ScopeOf(w, r), r.pending, r.dead.value, r.occasion, r.mentions).edges)
  {
    var scope := ScopeOf(w, r);
    ResolveKeepsKnown(w.g, scope, r.pending, suffixOf);
    var resolved := Resolved(w.g, scope, r.pending);
    RepairedExactly(resolved, r.dead.value);
    var repaired := Repaired(resolved, r.dead.value);
    BackfillKeepsKnown(repaired, scope, Selected(repaired.calls, NameFilter(r.occasion, |r.dead.value|), r.mentions),
                       suffixOf);
  }

  /* ---- the promises ---- */

  /** After any number of reindexes, the last of which ran to its end, no relation leads to a deleted or missing symbol. */
  lemma {:induction false} NoDanglingAfterReindexes(runs: seq<Reindex>, suffixOf: (string, string) -> bool)
    requires Faithful(runs, suffixOf) && (runs != [] ==> runs[|runs| - 1].dead.Some?)
    ensures NoDangling(Worlds(runs).ix.symbols, Worlds(runs).g.edges)
  {
    if runs != [] {
      var front, r := runs[..|runs| - 1], runs[|runs| - 1];
      RunsKeepKnown(front, suffixOf);
      EventsKeepKnown(Worlds(front), r.events);
      var touched := Events(Worlds(front), r.events);
      FinalPassLeavesNoDangling(touched.g, touched.ix, ScopeOf(touched, r), r.pending, r.dead.value, r.occasion,
                                r.mentions, suffixOf);
    }
  }

  /** Resolving adds only edges that end at live symbols, so a dead edge was there before. */
  lemma {:induction false} DeadEdgeIsOld(g: Graph, scope: Scope, nextPk: nat, pending: seq<Pending>, e: Edge,
                                         suffixOf: (string, string) -> bool)
    requires PksOk(scope.symbols, nextPk) && Sound(scope.lookup, scope.symbols, suffixOf)
    requires e in Resolved(g, scope, pending).edges && DeadPk(scope.symbols, e.dst)
    ensures e in g.edges
  {
    if pending != [] {
      var n := |pending| - 1;
      if e !in Resolved(g, scope, pending[..n]).edges {
        TargetIsLive(scope.lookup, scope.reexports, pending[n].candidates, [], scope.symbols, suffixOf);
        assert IsLivePk(scope.symbols, e.dst);
        DeadIsNotLive(scope.symbols, nextPk, e.dst);
      } else {
        DeadEdgeIsOld(g, scope, nextPk, pending[..n], e, suffixOf);
      }
    }
  }

  lemma DeadIsNotLive(symbols: Symbols, nextPk: nat, pk: nat)
    requires PksOk(symbols, nextPk)
    ensures !(DeadPk(symbols, pk) && IsLivePk(symbols, pk))
  {
  }

  /**
   Exactly when a reindex leaves no dangling relation: when every dead edge it finds has a source that some file defines.
   Otherwise repair has no file for its row, the last transaction is rolled back, and the edge stays.
   */
  lemma {:induction false} NoDanglingIff(runs: seq<Reindex>, suffixOf: (string, string) -> bool)
    requires Faithful(runs, suffixOf) && runs != []
    ensures var r := runs[|runs| - 1];
            var touched := Events(Worlds(runs[..|runs| - 1]), r.events);
            NoDangling(Worlds(runs).ix.symbols, Worlds(runs).g.edges)
            <==> DeadHaveHomes(touched.ix, ResolvedEdges(touched, r))
  {
    var front, r := runs[..|runs| - 1], runs[|runs| - 1];
    var touched := Events(Worlds(front), r.events);
    if r.dead.Some? {
      NoDanglingAfterReindexes(runs, suffixOf);
      ListedHaveHomes(r.dead.value, touched.ix, ResolvedEdges(touched, r));
    } else {
      RunsKeepKnown(front, suffixOf);
      EventsKeepKnown(Worlds(front), r.events);
      var e :| e in ResolvedEdges(touched, r) && Dead(touched.ix.symbols, e) && !HasHome(touched.ix, e.src);
      DeadEdgeIsOld(touched.g, ScopeOf(touched, r), touched.ix.nextPk, r.pending, e, suffixOf);
      DeadIsNotLive(touched.ix.symbols, touched.ix.nextPk, e.dst);
    }
  }

  function AllEvents(runs: seq<Reindex>): seq<Event> {
    if runs == [] then [] else AllEvents(runs[..|runs| - 1]) + runs[|runs| - 1].events
  }

  /** The file tables alone, event by event. */
  function FilesAfter(ix: Index, events: seq<Event>): Index {
    if events == [] then ix else After(FilesAfter(ix, events[..|events| - 1]), events[|events| - 1])
  }

  lemma {:induction false} EventsFiles(w: World, events: seq<Event>)
    ensures Events(w, events).ix == FilesAfter(w.ix, events)
  {
    if events != [] {
      EventsFiles(w, events[..|events| - 1]);
    }
  }

  lemma LastOfSum<T>(a: seq<T>, b: seq<T>)
    requires b != []
    ensures (a + b)[..|a + b| - 1] == a + b[..|b| - 1] && (a + b)[|a + b| - 1] == b[|b| - 1]
  {
  }

  lemma {:induction false} FilesAreARun(history: seq<Event>, events: seq<Event>)
    ensures FilesAfter(Run(history), events) == Run(history + events)
  {
    if events == [] {
      assert history + events == history;
    } else {
      FilesAreARun(history, events[..|events| - 1]);
      LastOfSum(history, events);
    }
  }

  /** The tables of the files are those of the whole history, so all its laws hold between reindexes too. */
  lemma {:induction false} IndexIsARun(runs: seq<Reindex>)
    ensures Worlds(runs).ix == Run(AllEvents(runs))
  {
    if runs != [] {
      var front := runs[..|runs| - 1];
      IndexIsARun(front);
      EventsFiles(Worlds(front), runs[|runs| - 1].events);
      FilesAreARun(AllEvents(front), runs[|runs| - 1].events);
    }
  }

  /* ---- when repair can list the dead edges ---- */

  lemma ListedHaveHomes(dead: seq<DeadRow>, ix: Index, edges: set<Edge>)
    requires ListsDead(dead, ix, edges)
    ensures DeadHaveHomes(ix, edges)
  {
    forall e | e in edges && Dead(ix.symbols, e)
      ensures HasHome(ix, e.src)
    {
      var r :| r in dead && r.edge == e;
      assert Describes(r, ix);
    }
  }

  lemma {:induction false} ListDead(ix: Index, edges: set<Edge>) returns (dead: seq<DeadRow>)
    requires DeadHaveHomes(ix, edges)
    ensures ListsDead(dead, ix, edges)
    decreases |edges|
  {
    if edges == {} {
      dead := [];
    } else {
      var e :| e in edges;
      dead := ListDead(ix, edges - {e});
      if Dead(ix.symbols, e) {
        var row := DeadRowFor(ix, e);
        dead := dead + [row];
      }
    }
  }

  lemma DeadRowFor(ix: Index, e: Edge) returns (row: DeadRow)
    requires Dead(ix.symbols, e) && HasHome(ix, e.src)
    ensures row.edge == e && Describes(row, ix)
  {
    var u :| u in ix.symbols && !ix.symbols[u].deleted && ix.symbols[u].pk == e.src;
    var v :| v in ix.symbols && ix.symbols[v].pk == e.dst && ix.symbols[v].deleted;
    var f :| Defines(ix.occurrences, f, e.src);
    row := DeadRow(e, f, u, ix.symbols[v].canonical, ix.symbols[v].display);
    assert ix.symbols[v] == Symbol(e.dst, row.canonical, row.display, true);
  }

  /** Repair can list the dead edges exactly when each has a source that some file defines. */
  lemma DeadRowsExistIff(ix: Index, edges: set<Edge>)
    ensures (exists dead :: ListsDead(dead, ix, edges)) <==> DeadHaveHomes(ix, edges)
  {
    if DeadHaveHomes(ix, edges) {
      var dead := ListDead(ix, edges);
    }
    if exists dead :: ListsDead(dead, ix, edges) {
      var dead :| ListsDead(dead, ix, edges);
      ListedHaveHomes(dead, ix, edges);
    }
  }

  /** After any history, the symbols without a home are the spared ones. */
  lemma HomelessIsSpared(history: seq<Event>, u: Uid)
    requires LiveSymbol(Run(history), u)
    ensures HasHome(Run(history), Run(history).symbols[u].pk) <==> u !in Spared(history)
  {
    LiveSymbolsAreDefined(history, u);
    RunAgrees(history);
    var ix := Run(history);
    if HasHome(ix, ix.symbols[u].pk) {
      var f :| Defines(ix.occurrences, f, ix.symbols[u].pk);
      assert DefinedIn(Latest(history), f, u);
      assert f in ix.files && !ix.files[f];
    }
  }

  /** With well-formed parses repair can always do its work: the column that must not be null never is. */
  lemma {:induction false} DeadRowsExist(history: seq<Event>, edges: set<Edge>) returns (dead: seq<DeadRow>)
    requires WellFormed(history)
    ensures ListsDead(dead, Run(history), edges)
  {
    var ix := Run(history);
    forall e | e in edges && Dead(ix.symbols, e)
      ensures HasHome(ix, e.src)
    {
      DeadEdgesHaveAHome(history, e);
    }
    dead := ListDead(ix, edges);
  }

  /** A file that declares a caller without a definition, and a callee with one. */
  function CallerAndCallee(u: SymbolDraft, v: SymbolDraft): Parse {
    Parse([u, v], [OccurrenceDraft(v.uid, true)], [RelationDraft(u.uid, v.uid, "calls")], [])
  }

  lemma ComeAndGone(f: Path, p: Parse)
    ensures Latest([Parsed(f, p)]) == map[f := p]
    ensures Latest([Parsed(f, p)] + [Removed(f)]) == map[]
  {
    assert [Parsed(f, p)][..0] == [];
    var both := [Parsed(f, p)] + [Removed(f)];
    assert both[..1] == [Parsed(f, p)];
    assert Latest(both) == Latest([Parsed(f, p)]) - {f};
  }

  lemma CallerOutlives(f: Path, u: SymbolDraft, v: SymbolDraft)
    requires u.uid != v.uid
    ensures var both := [Parsed(f, CallerAndCallee(u, v))] + [Removed(f)];
            LiveSymbol(Run(both), u.uid) && !HasHome(Run(both), Run(both).symbols[u.uid].pk)
  {
    var p := CallerAndCallee(u, v);
    var both := [Parsed(f, p)] + [Removed(f)];
    assert both[..1] == [Parsed(f, p)];
    assert p.symbols[0] == u && u.uid in Declared(p);
    ComeAndGone(f, p);
    assert !DefinedBy(p, u.uid);
    UndefinedSurvivesIff(both, 0, u.uid);
    SparedByTheLastParse(both, 0);
    HomelessIsSpared(both, u.uid);
  }

  lemma CalleeDies(f: Path, u: SymbolDraft, v: SymbolDraft)
    requires u.uid != v.uid
    ensures !LiveSymbol(Run([Parsed(f, CallerAndCallee(u, v))] + [Removed(f)]), v.uid)
  {
    var p := CallerAndCallee(u, v);
    var both := [Parsed(f, p)] + [Removed(f)];
    assert both[..1] == [Parsed(f, p)];
    assert p.symbols[1] == v && v.uid in Declared(p);
    ComeAndGone(f, p);
    assert DefinedIn(Latest([Parsed(f, p)]), f, v.uid);
    UndefinedSurvivesIff(both, 0, v.uid);
  }

  /** After the file is gone the caller lives, without a home, and the callee does not. */
  lemma CallerOutlivesCallee(f: Path, u: SymbolDraft, v: SymbolDraft)
    requires u.uid != v.uid
    ensures var once := [Parsed(f, CallerAndCallee(u, v))];
            var both := once + [Removed(f)];
            && u.uid in Run(once).symbols && v.uid in Run(once).symbols
            && !DefinedIn(Latest(once), f, u.uid)
            && LiveSymbol(Run(both), u.uid) && !HasHome(Run(both), Run(both).symbols[u.uid].pk)
            && !LiveSymbol(Run(both), v.uid)
  {
    var p := CallerAndCallee(u, v);
    var once := [Parsed(f, p)];
    assert p.symbols[0] == u && p.symbols[1] == v;
    assert u.uid in Declared(p) && v.uid in Declared(p);
    ComeAndGone(f, p);
    RunNext([], Parsed(f, p));
    assert [] + once == once;
    UpsertAllDeclares(map[], 1, p.symbols);
    CallerOutlives(f, u, v);
    CalleeDies(f, u, v);
  }

  /** The call lands, and the removal of the file spares it, because its source has no definition there. */
  lemma CallStays(f: Path, u: SymbolDraft, v: SymbolDraft)
    requires u.uid != v.uid
    ensures var once := [Parsed(f, CallerAndCallee(u, v))];
            var g := GraphAfter(Graph({}, []), EMPTY, once[0]);
            && u.uid in Run(once).symbols && v.uid in Run(once).symbols
            && Edge(Run(once).symbols[u.uid].pk, Run(once).symbols[v.uid].pk, "calls")
                 in GraphAfter(g, Run(once), Removed(f)).edges
  {
    var p := CallerAndCallee(u, v);
    var once := [Parsed(f, p)];
    assert once[..0] == [];
    CallerOutlivesCallee(f, u, v);
    LandedAfter(EMPTY, f, p);
    var r := p.relations[0];
    assert r in p.relations;
    assert p.symbols[0] == u && p.symbols[1] == v;
    DefinedPkIff(once, f, u.uid);
  }

  lemma TwoEvents(a: Event, b: Event)
    ensures var g := Graph({}, []);
            Events(World(EMPTY, g), [a, b])
            == World(Run([a] + [b]), GraphAfter(GraphAfter(g, EMPTY, a), Run([a]), b))
  {
    assert [a][..0] == [] && [a, b][..1] == [a];
    assert [a] + [b] == [a, b];
    assert Events(World(EMPTY, Graph({}, [])), [a]) == World(Run([a]), GraphAfter(Graph({}, []), EMPTY, a));
  }

  /**
   Two events after which repair cannot list: a file with a caller that has no definition occurrence comes and goes. The
   call to the deleted callee stays.
   */
  lemma UnlistableEdge(f: Path, u: SymbolDraft, v: SymbolDraft)
    requires u.uid != v.uid
    ensures var w := Events(World(EMPTY, Graph({}, [])), [Parsed(f, CallerAndCallee(u, v)), Removed(f)]);
            !DeadHaveHomes(w.ix, w.g.edges)
  {
    var once := [Parsed(f, CallerAndCallee(u, v))];
    TwoEvents(once[0], Removed(f));
    RunNext(once, Removed(f));
    RunKeepsPks(once);
    CallerOutlivesCallee(f, u, v);
    CallStays(f, u, v);
    CallIsDead(Run(once), Run(once + [Removed(f)]), Removed(f), u.uid, v.uid);
  }

  lemma CallIsDead(before: Index, after: Index, e: Event, u: Uid, v: Uid)
    requires PksOk(before.symbols, before.nextPk) && after == After(before, e)
    requires u in before.symbols && v in before.symbols && LiveSymbol(after, u) && !LiveSymbol(after, v)
    ensures after.symbols[u].pk == before.symbols[u].pk
    ensures Dead(after.symbols, Edge(before.symbols[u].pk, before.symbols[v].pk, "calls"))
  {
    StepKeepsKeys(before, e);
  }
}
