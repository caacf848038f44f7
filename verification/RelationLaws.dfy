/** What repairing and backfilling keep, and what a reindex leaves behind. */
module RelationLaws {
  import opened Options
  import opened FileIndex
  import opened SymbolLaws
  import opened Resolver
  import opened Relations

  /* ---- counting ---- */

  function OpenCount(calls: seq<OpenCall>): nat {
    if calls == [] then 0
    else OpenCount(calls[..|calls| - 1]) + if calls[|calls| - 1].open then 1 else 0
  }

  /** Relations that have landed, and those still waiting to. */
  function Weight(g: Graph): nat {
    |g.edges| + OpenCount(g.calls)
  }

  lemma OpenCountAppend(calls: seq<OpenCall>, call: OpenCall)
    ensures OpenCount(calls + [call]) == OpenCount(calls) + if call.open then 1 else 0
  {
    assert (calls + [call])[..|calls|] == calls;
  }

  lemma {:induction false} OpenCountClosed(calls: seq<OpenCall>, i: nat)
    requires i < |calls| && calls[i].open
    ensures OpenCount(Closed(calls, i)) == OpenCount(calls) - 1
  {
    var n := |calls| - 1;
    if i < n {
      OpenCountClosed(calls[..n], i);
      assert Closed(calls, i)[..n] == Closed(calls[..n], i);
    } else {
      assert Closed(calls, i)[..n] == calls[..n];
    }
  }

  /* ---- repair ---- */

  function EdgesOf(dead: seq<DeadRow>): set<Edge> {
    set r | r in dead :: r.edge
  }

  function QueuedAll(dead: seq<DeadRow>): seq<OpenCall> {
    if dead == [] then [] else QueuedAll(dead[..|dead| - 1]) + [Queued(dead[|dead| - 1])]
  }

  lemma {:induction false} QueuedAllAt(dead: seq<DeadRow>, i: nat)
    requires i < |dead|
    ensures |QueuedAll(dead)| == |dead| && QueuedAll(dead)[i] == Queued(dead[i])
    ensures var r := dead[i];
            QueuedAll(dead)[i] == OpenCall(r.file, r.src, r.edge.kind,
                                           if r.display in {"", r.canonical} then [r.canonical] else [r.canonical, r.display],
                                           true)
  {
    var n := |dead| - 1;
    if n == 0 {
      assert dead[..0] == [];
    } else {
      QueuedAllAt(dead[..n], if i < n then i else 0);
    }
  }

  /**
   Repair takes away exactly the listed edges and appends one open row for each, in their order, with its kind,
   its source and the name of its lost target first.
   */
  lemma {:induction false} RepairedExactly(g: Graph, dead: seq<DeadRow>)
    ensures Repaired(g, dead) == Graph(g.edges - EdgesOf(dead), g.calls + QueuedAll(dead))
    ensures |QueuedAll(dead)| == |dead|
  {
    if dead != [] {
      var front, last := dead[..|dead| - 1], dead[|dead| - 1];
      RepairedExactly(g, front);
      assert dead == front + [last];
      assert EdgesOf(dead) == EdgesOf(front) + {last.edge};
    }
  }

  lemma RepairOneConserves(g: Graph, r: DeadRow)
    requires r.edge in g.edges
    ensures Weight(RepairedOne(g, r)) == Weight(g)
  {
    OpenCountAppend(g.calls, Queued(r));
  }

  lemma LastIsNoneOfTheFront(dead: seq<DeadRow>)
    requires dead != [] && forall i, j | 0 <= i < j < |dead| :: dead[i].edge != dead[j].edge
    ensures dead[|dead| - 1].edge !in EdgesOf(dead[..|dead| - 1])
  {
  }

  /** Repair turns edges into open rows one for one. */
  lemma {:induction false} RepairConserves(g: Graph, dead: seq<DeadRow>)
    requires forall r | r in dead :: r.edge in g.edges
    requires forall i, j | 0 <= i < j < |dead| :: dead[i].edge != dead[j].edge
    ensures Weight(Repaired(g, dead)) == Weight(g)
  {
    if dead != [] {
      var front, last := dead[..|dead| - 1], dead[|dead| - 1];
      RepairConserves(g, front);
      RepairedExactly(g, front);
      LastIsNoneOfTheFront(dead);
      RepairOneConserves(Repaired(g, front), last);
    }
  }

  /* ---- backfill ---- */

  /** The selected rows whose source is gone. */
  function Gone(calls: seq<OpenCall>, symbols: Symbols, rows: seq<nat>): nat
    requires forall k | 0 <= k < |rows| :: rows[k] < |calls|
  {
    if rows == [] then 0
    else
      var n := |rows| - 1;
      Gone(calls, symbols, rows[..n]) + if LiveSource(symbols, calls[rows[n]].src).None? then 1 else 0
  }

  predicate Distinct(rows: seq<nat>) {
    forall i, j | 0 <= i < j < |rows| :: rows[i] != rows[j]
  }

  /** Rows keep everything but that they may close; edges only come. */
  predicate Advances(g: Graph, after: Graph) {
    && g.edges <= after.edges
    && |after.calls| == |g.calls|
    && (forall i | 0 <= i < |g.calls| ::
          after.calls[i] == g.calls[i] || after.calls[i] == g.calls[i].(open := false))
  }

  lemma {:induction false} BackfillAdvances(g: Graph, scope: Scope, rows: seq<nat>)
    requires forall k | 0 <= k < |rows| :: rows[k] < |g.calls|
    ensures Advances(g, Backfilled(g, scope, rows))
    ensures forall i | 0 <= i < |g.calls| && i !in rows :: Backfilled(g, scope, rows).calls[i] == g.calls[i]
  {
    if rows != [] {
      BackfillAdvances(g, scope, rows[..|rows| - 1]);
    }
  }

  /**
   Across a backfill, edges plus open rows drop by exactly the rows closed because their source is gone; every
   other row that closes is replaced by the edge that landed.
   */
  lemma {:induction false} BackfillConserves(g: Graph, scope: Scope, rows: seq<nat>)
    requires forall k | 0 <= k < |rows| :: rows[k] < |g.calls| && g.calls[rows[k]].open
    requires Distinct(rows)
    ensures Weight(Backfilled(g, scope, rows)) == Weight(g) - Gone(g.calls, scope.symbols, rows)
  {
    if rows != [] {
      var n := |rows| - 1;
      var front, i := rows[..n], rows[n];
      BackfillConserves(g, scope, front);
      BackfillAdvances(g, scope, front);
      var before := Backfilled(g, scope, front);
      assert i !in front;
      assert before.calls[i] == g.calls[i];
      OpenCountClosed(before.calls, i);
    }
  }

  lemma {:induction false} SelectedRows(calls: seq<OpenCall>, names: Option<set<string>>,
                                        mentions: (OpenCall, string) -> bool)
    ensures var rows := Selected(calls, names, mentions);
            && Distinct(rows)
            && (forall k | 0 <= k < |rows| :: calls[rows[k]].open)
            && (forall i | 0 <= i < |calls| :: i in rows <==> Wanted(calls[i], names, mentions))
  {
    if calls != [] {
      var n := |calls| - 1;
      SelectedRows(calls[..n], names, mentions);
    }
  }

  /* ---- no dangling edges ---- */

  /** Every edge that starts at a live symbol ends at one. */
  ghost predicate NoDangling(symbols: Symbols, edges: set<Edge>) {
    forall e | e in edges && IsLivePk(symbols, e.src) :: IsLivePk(symbols, e.dst)
  }

  /** Edges start and end at rows of the symbol table. */
  predicate KnownEdges(symbols: Symbols, edges: set<Edge>) {
    forall e | e in edges :: && (exists u :: u in symbols && symbols[u].pk == e.src)
                             && (exists u :: u in symbols && symbols[u].pk == e.dst)
  }

  lemma DeadAreListed(dead: seq<DeadRow>, ix: Index, edges: set<Edge>, e: Edge)
    requires ListsDead(dead, ix, edges) && e in edges
    ensures Dead(ix.symbols, e) ==> e in EdgesOf(dead)
  {
    if Dead(ix.symbols, e) {
      var r :| r in dead && r.edge == e;
      assert r.edge in EdgesOf(dead);
    }
  }

  lemma RepairLeavesNoDangling(g: Graph, dead: seq<DeadRow>, ix: Index)
    requires KnownEdges(ix.symbols, g.edges) && ListsDead(dead, ix, g.edges)
    ensures NoDangling(ix.symbols, Repaired(g, dead).edges)
  {
    RepairedExactly(g, dead);
    forall e | e in Repaired(g, dead).edges && IsLivePk(ix.symbols, e.src)
      ensures IsLivePk(ix.symbols, e.dst)
    {
      DeadAreListed(dead, ix, g.edges, e);
      var u :| u in ix.symbols && ix.symbols[u].pk == e.dst;
      assert !DeadPk(ix.symbols, e.dst);
    }
  }

  lemma {:induction false} BackfillKeepsNoDangling(g: Graph, scope: Scope, rows: seq<nat>,
                                                   suffixOf: (string, string) -> bool)
    requires forall k | 0 <= k < |rows| :: rows[k] < |g.calls|
    requires Sound(scope.lookup, scope.symbols, suffixOf) && NoDangling(scope.symbols, g.edges)
    ensures NoDangling(scope.symbols, Backfilled(g, scope, rows).edges)
  {
    if rows != [] {
      var n := |rows| - 1;
      BackfillKeepsNoDangling(g, scope, rows[..n], suffixOf);
      var before := Backfilled(g, scope, rows[..n]);
      var call := before.calls[rows[n]];
      if ByTier(scope.lookup, scope.reexports, call.candidates, []).0.Some? {
        TargetIsLive(scope.lookup, scope.reexports, call.candidates, [], scope.symbols, suffixOf);
      }
    }
  }

  lemma {:induction false} ResolveKeepsKnown(g: Graph, scope: Scope, pending: seq<Pending>,
                                             suffixOf: (string, string) -> bool)
    requires Sound(scope.lookup, scope.symbols, suffixOf) && KnownEdges(scope.symbols, g.edges)
    ensures KnownEdges(scope.symbols, Resolved(g, scope, pending).edges)
  {
    if pending != [] {
      var n := |pending| - 1;
      ResolveKeepsKnown(g, scope, pending[..n], suffixOf);
      var candidates := pending[n].candidates;
      if ByTier(scope.lookup, scope.reexports, candidates, []).0.Some? {
        TargetIsLive(scope.lookup, scope.reexports, candidates, [], scope.symbols, suffixOf);
      }
    }
  }

  /** After every reindex, each relation with a live source ends at a live symbol. */
  lemma FinalPassLeavesNoDangling(g: Graph, ix: Index, scope: Scope, pending: seq<Pending>, dead: seq<DeadRow>,
                                  o: Occasion, mentions: (OpenCall, string) -> bool,
                                  suffixOf: (string, string) -> bool)
    requires scope.symbols == ix.symbols && KnownEdges(ix.symbols, g.edges)
    requires Sound(scope.lookup, scope.symbols, suffixOf)
    requires ListsDead(dead, ix, Resolved(g, scope, pending).edges)
    ensures NoDangling(ix.symbols, FinalPass(g, scope, pending, dead, o, mentions).edges)
  {
    var resolved := Resolved(g, scope, pending);
    ResolveKeepsKnown(g, scope, pending, suffixOf);
    RepairLeavesNoDangling(resolved, dead, ix);
    var repaired := Repaired(resolved, dead);
    var rows := Selected(repaired.calls, NameFilter(o, |dead|), mentions);
    BackfillKeepsNoDangling(repaired, scope, rows, suffixOf);
  }

  /** Across repair and backfill nothing is lost but rows whose source is gone. */
  lemma {:induction false} FinalPassConserves(g: Graph, ix: Index, scope: Scope, pending: seq<Pending>, dead: seq<DeadRow>,
                           o: Occasion, mentions: (OpenCall, string) -> bool)
    requires ListsDead(dead, ix, Resolved(g, scope, pending).edges)
    ensures var resolved := Resolved(g, scope, pending);
            var repaired := Repaired(resolved, dead);
            var rows := Selected(repaired.calls, NameFilter(o, |dead|), mentions);
            var lost := if Backfills(o, |dead|) then Gone(repaired.calls, scope.symbols, rows) else 0;
            Weight(FinalPass(g, scope, pending, dead, o, mentions)) == Weight(resolved) - lost
  {
    var resolved := Resolved(g, scope, pending);
    RepairConserves(resolved, dead);
    var repaired := Repaired(resolved, dead);
    var names := NameFilter(o, |dead|);
    SelectedRows(repaired.calls, names, mentions);
    BackfillConserves(repaired, scope, Selected(repaired.calls, names, mentions));
  }

  lemma ListedIsDangling(dead: seq<DeadRow>, ix: Index, edges: set<Edge>)
    requires PksOk(ix.symbols, ix.nextPk) && ListsDead(dead, ix, edges)
    ensures dead != [] ==> !NoDangling(ix.symbols, edges)
  {
    if dead != [] {
      var r := dead[0];
      assert r in dead;
      assert ix.symbols[r.src].pk == r.edge.src;
      assert IsLivePk(ix.symbols, r.edge.src);
      var v :| v in ix.symbols && ix.symbols[v] == Symbol(r.edge.dst, r.canonical, r.display, true);
      assert forall u | u in ix.symbols && ix.symbols[u].pk == r.edge.dst :: u == v;
      assert !IsLivePk(ix.symbols, r.edge.dst);
    }
  }

  /** A reindex that saw nothing new changes no relation and no open row. */
  lemma {:induction false} QuietPassChangesNothing(g: Graph, ix: Index, scope: Scope, dead: seq<DeadRow>, o: Occasion,
                                mentions: (OpenCall, string) -> bool)
    requires PksOk(ix.symbols, ix.nextPk) && NoDangling(ix.symbols, g.edges) && ListsDead(dead, ix, g.edges)
    requires !o.force && !o.symbolsRemoved && o.after <= o.before
    ensures FinalPass(g, scope, [], dead, o, mentions) == g
  {
    ListedIsDangling(dead, ix, g.edges);
  }

  /* ---- what the queued rows are for ---- */

  lemma {:induction false} BackfillOfRow(g: Graph, scope: Scope, rows: seq<nat>, i: nat)
    requires forall k | 0 <= k < |rows| :: rows[k] < |g.calls|
    requires i in rows && Distinct(rows)
    ensures var call := g.calls[i];
            var src := LiveSource(scope.symbols, call.src);
            src.Some? && Target(scope, call.candidates, src.value).Some? ==>
              Edge(src.value, Target(scope, call.candidates, src.value).value, call.kind)
                in Backfilled(g, scope, rows).edges
  {
    var n := |rows| - 1;
    BackfillAdvances(g, scope, rows[..n]);
    if rows[n] != i {
      BackfillOfRow(g, scope, rows[..n], i);
    } else {
      assert i !in rows[..n];
    }
  }

  /**
   A repaired edge heals: once a live symbol has the canonical name of the lost target again, a backfill over all
   open rows puts the edge back, to that symbol, unless it is the source itself.
   */
  lemma {:induction false} RepairedEdgeHeals(g: Graph, scope: Scope, r: DeadRow, i: nat, mentions: (OpenCall, string) -> bool)
    requires i < |g.calls| && g.calls[i] == Queued(r)
    requires LiveSource(scope.symbols, r.src) == Some(r.edge.src)
    requires scope.lookup.exact(r.canonical).Some? && scope.lookup.exact(r.canonical) != Some(r.edge.src)
    ensures Edge(r.edge.src, scope.lookup.exact(r.canonical).value, r.edge.kind)
              in Backfilled(g, scope, Selected(g.calls, None, mentions)).edges
  {
    SelectedRows(g.calls, None, mentions);
    assert Wanted(g.calls[i], None, mentions);
    assert Queued(r).candidates[0] == r.canonical;
    assert Hop(scope.reexports, r.canonical, 0) == Some(r.canonical);
    assert FirstLive(scope.lookup, scope.reexports, r.canonical, 0) == scope.lookup.exact(r.canonical);
    BackfillOfRow(g, scope, Selected(g.calls, None, mentions), i);
  }

  /** A row is settled when a backfill would leave it as it is. */
  predicate Settled(g: Graph, scope: Scope, i: nat)
    requires i < |g.calls|
  {
    !g.calls[i].open || BackfilledOne(g, scope, i) == g
  }

  lemma {:induction false} BackfillSettles(g: Graph, scope: Scope, rows: seq<nat>, i: nat)
    requires forall k | 0 <= k < |rows| :: rows[k] < |g.calls|
    requires i in rows && Distinct(rows)
    ensures Settled(Backfilled(g, scope, rows), scope, i)
  {
    var n := |rows| - 1;
    BackfillAdvances(g, scope, rows[..n]);
    if rows[n] != i {
      BackfillSettles(g, scope, rows[..n], i);
      var before, after := Backfilled(g, scope, rows[..n]), Backfilled(g, scope, rows);
      assert before.calls[i] == after.calls[i];
      assert before.edges <= after.edges;
    }
  }

  lemma {:induction false} SettledStays(g: Graph, scope: Scope, rows: seq<nat>)
    requires forall k | 0 <= k < |rows| :: rows[k] < |g.calls| && g.calls[rows[k]].open
    requires forall k | 0 <= k < |rows| :: Settled(g, scope, rows[k])
    ensures Backfilled(g, scope, rows) == g
  {
    if rows != [] {
      SettledStays(g, scope, rows[..|rows| - 1]);
    }
  }

  /** A backfill over all open rows reaches its fixpoint in one pass. */
  lemma BackfillIsAFixpoint(g: Graph, scope: Scope, mentions: (OpenCall, string) -> bool)
    ensures var once := Backfilled(g, scope, Selected(g.calls, None, mentions));
            Backfilled(once, scope, Selected(once.calls, None, mentions)) == once
  {
    var rows := Selected(g.calls, None, mentions);
    var once := Backfilled(g, scope, rows);
    var again := Selected(once.calls, None, mentions);
    SelectedRows(g.calls, None, mentions);
    SelectedRows(once.calls, None, mentions);
    BackfillAdvances(g, scope, rows);
    forall k | 0 <= k < |again|
      ensures Settled(once, scope, again[k])
    {
      assert once.calls[again[k]].open;
      assert g.calls[again[k]].open;
      assert Wanted(g.calls[again[k]], None, mentions);
      BackfillSettles(g, scope, rows, again[k]);
    }
    SettledStays(once, scope, again);
  }

  lemma LastOfMultiset<T>(s: seq<T>)
    requires s != []
    ensures multiset(s) == multiset(s[..|s| - 1]) + multiset{s[|s| - 1]}
  {
    assert s == s[..|s| - 1] + [s[|s| - 1]];
  }

  /** What is left of the open rows when a file goes: those of the other files, all of them. */
  lemma {:induction false} CallsOutsideAreKept(calls: seq<OpenCall>, f: Path, call: OpenCall)
    ensures multiset(CallsOutside(calls, f))[call] == if call.file == f then 0 else multiset(calls)[call]
  {
    if calls != [] {
      var n := |calls| - 1;
      CallsOutsideAreKept(calls[..n], f, call);
      LastOfMultiset(calls);
      var rest := CallsOutside(calls[..n], f);
      assert multiset(rest + [calls[n]]) == multiset(rest) + multiset{calls[n]};
    }
  }

  /* ---- with the symbol table of a whole history ---- */

  /** The query of repair never yields a row without a file: its live source always has a definition. */
  lemma DeadEdgesHaveAHome(history: seq<Event>, e: Edge)
    requires WellFormed(history) && Dead(Run(history).symbols, e)
    ensures HasLiveHome(Run(history), e.src)
  {
    var ix := Run(history);
    var u :| u in ix.symbols && !ix.symbols[u].deleted && ix.symbols[u].pk == e.src;
    NothingSpared(history);
    LiveSymbolsAreDefined(history, u);
  }

  lemma DefinedPkIff(history: seq<Event>, f: Path, u: Uid)
    requires u in Run(history).symbols
    ensures Run(history).symbols[u].pk in DefinedPksIn(Run(history).occurrences, f)
            <==> DefinedIn(Latest(history), f, u)
  {
    RunAgrees(history);
    var ix := Run(history);
    var pk := ix.symbols[u].pk;
    assert Defines(ix.occurrences, f, pk) <==> DefinedIn(Latest(history), f, u);
    if Defines(ix.occurrences, f, pk) {
      assert Occurrence(pk, f, true).pk in DefinedPksIn(ix.occurrences, f);
    }
  }

  /**
   Deleting a file also deletes the edges of symbols that other files still define: an edge of a symbol that stays
   live is lost exactly when the deleted file is one of several that define the symbol.
   */
  lemma RemovalLosesLiveEdgeIff(history: seq<Event>, g: Graph, f: Path, e: Edge, u: Uid)
    requires f in Run(history).files
    requires u in Run(history).symbols && e.src == Run(history).symbols[u].pk && e in g.edges
    ensures var ix, latest := Run(history), Latest(history);
            (!FileTombstoned(ix, f).symbols[u].deleted && e !in Orphaned(g, ix.occurrences, f).edges)
            <==> DefinedIn(latest, f, u) && exists h :: h != f && DefinedIn(latest, h, u)
  {
    RunAgrees(history);
    DefinedPkIff(history, f, u);
    var ix, latest := Run(history), Latest(history);
    TombstonedLiveness(ix, latest, Spared(history), f, u);
    if exists h :: h != f && DefinedIn(latest, h, u) {
      var h :| h != f && DefinedIn(latest, h, u);
      assert DefinedIn(latest - {f}, h, u);
    }
    if DefinedSomewhere(latest - {f}, u) {
      var h :| DefinedIn(latest - {f}, h, u);
      assert h != f && DefinedIn(latest, h, u);
    }
  }

  /**
   A parse of a file takes an edge away exactly when its kind is one that parses find, the file's last parse defined
   the source, and the new parse does not name the edge itself; that other files define the source too does not help.
   */
  lemma ReparseLosesEdgeIff(history: seq<Event>, g: Graph, f: Path, p: Parse, e: Edge, u: Uid)
    requires u in Run(history).symbols && e.src == Run(history).symbols[u].pk && e in g.edges
    ensures var ix, after := Run(history), Run(history + [Parsed(f, p)]);
            && Declared(p) <= after.symbols.Keys
            && (e !in GraphAfter(g, ix, Parsed(f, p)).edges
                <==> && e.kind in PARSED_KINDS
                     && DefinedIn(Latest(history), f, u)
                     && !exists r :: r in p.relations && r.src in Declared(p) && r.dst in Declared(p)
                                     && e == Edge(after.symbols[r.src].pk, after.symbols[r.dst].pk, r.kind))
  {
    var ix := Run(history);
    assert (history + [Parsed(f, p)])[..|history|] == history;
    DefinedPkIff(history, f, u);
    UpsertAllDeclares(ix.symbols, ix.nextPk, p.symbols);
    LandedAfter(ix, f, p);
  }

  /** Burying the orphans moves no key, so what lands can be read off the tables after the parse. */
  lemma LandedAfter(ix: Index, f: Path, p: Parse)
    ensures Declared(p) <= UpsertAll(ix.symbols, ix.nextPk, p.symbols).0.Keys
    ensures var after := After(ix, Parsed(f, p)).symbols;
            && Declared(p) <= after.Keys
            && Landed(UpsertAll(ix.symbols, ix.nextPk, p.symbols).0, p) == Landed(after, p)
  {
    UpsertAllDeclares(ix.symbols, ix.nextPk, p.symbols);
    var symbols := UpsertAll(ix.symbols, ix.nextPk, p.symbols).0;
    var after := After(ix, Parsed(f, p)).symbols;
    assert after.Keys == symbols.Keys;
    assert forall u | u in symbols :: after[u].pk == symbols[u].pk;
    assert Landed(symbols, p) == Landed(after, p);
  }
}
