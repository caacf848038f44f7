/**
 What each step does to relations and open calls, told by the names and lookups themselves: which edge or row every
 relation becomes, which rows a backfill closes, and which edges and rows a file event takes.
 */
module RelationEffects {
  import opened Options
  import opened FileIndex
  import opened SymbolLaws
  import opened Resolver
  import opened Relations
  import opened RelationLaws
  import opened ReindexRuns

  /* ---- what a list of names leads to ---- */

  /** The first live symbol on the way from the name through at most five re-exports. */
  ghost predicate LeadsTo(lookup: Lookup, reexports: Reexports, name: string, pk: nat) {
    exists h: nat :: h <= 5 && Hit(lookup, reexports, name, h) == Some(pk)
                     && forall g: nat | g < h :: Hit(lookup, reexports, name, g) == None
  }

  ghost predicate LeadsNowhere(lookup: Lookup, reexports: Reexports, name: string) {
    forall h: nat | h <= 5 :: Hit(lookup, reexports, name, h) == None
  }

  /** The first candidate that leads somewhere decides; if none does, the first that a suffix query knows. */
  ghost predicate Denotes(lookup: Lookup, reexports: Reexports, candidates: seq<string>, pk: nat) {
    || (exists i :: && 0 <= i < |candidates| && LeadsTo(lookup, reexports, candidates[i], pk)
                    && forall j | 0 <= j < i :: LeadsNowhere(lookup, reexports, candidates[j]))
    || ((forall j | 0 <= j < |candidates| :: LeadsNowhere(lookup, reexports, candidates[j]))
        && exists i :: && 0 <= i < |candidates| && lookup.suffix(candidates[i]) == Some(pk)
                       && forall j | 0 <= j < i :: lookup.suffix(candidates[j]) == None)
  }

  ghost predicate DenotesNothing(lookup: Lookup, reexports: Reexports, candidates: seq<string>) {
    forall j | 0 <= j < |candidates| ::
      LeadsNowhere(lookup, reexports, candidates[j]) && lookup.suffix(candidates[j]) == None
  }

  lemma {:induction false} FirstLiveFrom(lookup: Lookup, reexports: Reexports, name: string, n: nat)
    requires n <= 6 && forall g: nat | g < n :: Hit(lookup, reexports, name, g) == None
    ensures match FirstLive(lookup, reexports, name, n)
            case Some(pk) => LeadsTo(lookup, reexports, name, pk)
            case None => LeadsNowhere(lookup, reexports, name)
    decreases 6 - n
  {
    if n < 6 {
      if Hit(lookup, reexports, name, n).None? {
        FirstLiveFrom(lookup, reexports, name, n + 1);
      }
    }
  }

  lemma {:induction false} FirstOfTier(lookup: Lookup, reexports: Reexports, candidates: seq<string>)
    ensures match ExactOrReexport(lookup, reexports, candidates)
            case Some(pk) =>
              exists i :: && 0 <= i < |candidates| && LeadsTo(lookup, reexports, candidates[i], pk)
                          && forall j | 0 <= j < i :: LeadsNowhere(lookup, reexports, candidates[j])
            case None => forall j | 0 <= j < |candidates| :: LeadsNowhere(lookup, reexports, candidates[j])
  {
    if candidates != [] {
      FirstLiveFrom(lookup, reexports, candidates[0], 0);
      if FirstLive(lookup, reexports, candidates[0], 0).None? {
        var rest := candidates[1..];
        FirstOfTier(lookup, reexports, rest);
        if ExactOrReexport(lookup, reexports, rest).Some? {
          var pk := ExactOrReexport(lookup, reexports, rest).value;
          var i :| && 0 <= i < |rest| && LeadsTo(lookup, reexports, rest[i], pk)
                   && forall j | 0 <= j < i :: LeadsNowhere(lookup, reexports, rest[j]);
          assert candidates[i + 1] == rest[i];
          forall j | 0 <= j < i + 1
            ensures LeadsNowhere(lookup, reexports, candidates[j])
          {
            assert j > 0 ==> candidates[j] == rest[j - 1];
          }
        } else {
          forall j | 0 <= j < |candidates|
            ensures LeadsNowhere(lookup, reexports, candidates[j])
          {
            assert j > 0 ==> candidates[j] == rest[j - 1];
          }
        }
      }
    }
  }

  lemma {:induction false} FirstSuffix(lookup: Lookup, candidates: seq<string>)
    ensures match Suffix(lookup, candidates)
            case Some(pk) =>
              exists i :: && 0 <= i < |candidates| && lookup.suffix(candidates[i]) == Some(pk)
                          && forall j | 0 <= j < i :: lookup.suffix(candidates[j]) == None
            case None => forall j | 0 <= j < |candidates| :: lookup.suffix(candidates[j]) == None
  {
    if candidates != [] && lookup.suffix(candidates[0]).None? {
      var rest := candidates[1..];
      FirstSuffix(lookup, rest);
      if Suffix(lookup, rest).Some? {
        var pk := Suffix(lookup, rest).value;
        var i :| && 0 <= i < |rest| && lookup.suffix(rest[i]) == Some(pk)
                 && forall j | 0 <= j < i :: lookup.suffix(rest[j]) == None;
        assert candidates[i + 1] == rest[i];
        forall j | 0 <= j < i + 1
          ensures lookup.suffix(candidates[j]) == None
        {
          assert j > 0 ==> candidates[j] == rest[j - 1];
        }
      } else {
        forall j | 0 <= j < |candidates|
          ensures lookup.suffix(candidates[j]) == None
        {
          assert j > 0 ==> candidates[j] == rest[j - 1];
        }
      }
    }
  }

  lemma OneWay(lookup: Lookup, reexports: Reexports, name: string, a: nat, b: nat)
    requires LeadsTo(lookup, reexports, name, a)
    ensures !LeadsNowhere(lookup, reexports, name)
    ensures LeadsTo(lookup, reexports, name, b) ==> a == b
  {
    var h: nat :| h <= 5 && Hit(lookup, reexports, name, h) == Some(a)
                  && forall g: nat | g < h :: Hit(lookup, reexports, name, g) == None;
    if LeadsTo(lookup, reexports, name, b) {
      var k: nat :| k <= 5 && Hit(lookup, reexports, name, k) == Some(b)
                    && forall g: nat | g < k :: Hit(lookup, reexports, name, g) == None;
      assert h == k;
    }
  }

  lemma NowhereIsNotThere(lookup: Lookup, reexports: Reexports, name: string, pk: nat)
    requires LeadsNowhere(lookup, reexports, name)
    ensures !LeadsTo(lookup, reexports, name, pk)
  {
  }

  /** A list denotes one symbol at most. */
  lemma DenotesOne(lookup: Lookup, reexports: Reexports, candidates: seq<string>, a: nat, b: nat)
    requires Denotes(lookup, reexports, candidates, a) && Denotes(lookup, reexports, candidates, b)
    ensures a == b
  {
    if i :| && 0 <= i < |candidates| && LeadsTo(lookup, reexports, candidates[i], a)
            && forall j | 0 <= j < i :: LeadsNowhere(lookup, reexports, candidates[j]) {
      OneWay(lookup, reexports, candidates[i], a, b);
      var k :| && 0 <= k < |candidates| && LeadsTo(lookup, reexports, candidates[k], b)
               && forall j | 0 <= j < k :: LeadsNowhere(lookup, reexports, candidates[j]);
      OneWay(lookup, reexports, candidates[k], b, a);
      assert i == k;
    } else {
      forall k | 0 <= k < |candidates|
        ensures !LeadsTo(lookup, reexports, candidates[k], b)
      {
        NowhereIsNotThere(lookup, reexports, candidates[k], b);
      }
    }
  }

  /** The tiered order finds exactly what the list denotes. */
  lemma ByTierDenotes(lookup: Lookup, reexports: Reexports, candidates: seq<string>)
    ensures match ByTier(lookup, reexports, candidates, []).0
            case Some(pk) => Denotes(lookup, reexports, candidates, pk) && !DenotesNothing(lookup, reexports, candidates)
            case None => DenotesNothing(lookup, reexports, candidates)
  {
    FirstOfTier(lookup, reexports, candidates);
    FirstSuffix(lookup, candidates);
    var hit := ExactOrReexport(lookup, reexports, candidates);
    if hit.Some? {
      var i :| && 0 <= i < |candidates| && LeadsTo(lookup, reexports, candidates[i], hit.value)
               && forall j | 0 <= j < i :: LeadsNowhere(lookup, reexports, candidates[j]);
      OneWay(lookup, reexports, candidates[i], hit.value, hit.value);
    }
  }

  lemma ByTierIff(lookup: Lookup, reexports: Reexports, candidates: seq<string>, pk: nat)
    ensures ByTier(lookup, reexports, candidates, []).0 == Some(pk) <==> Denotes(lookup, reexports, candidates, pk)
  {
    ByTierDenotes(lookup, reexports, candidates);
    var found := ByTier(lookup, reexports, candidates, []).0;
    if Denotes(lookup, reexports, candidates, pk) {
      if found.Some? {
        DenotesOne(lookup, reexports, candidates, pk, found.value);
      } else {
        NothingIsNothing(lookup, reexports, candidates, pk);
      }
    }
  }

  /** Precise names come between the tiers, and the flag says that one of them decided. */
  lemma PreciseTierIff(lookup: Lookup, reexports: Reexports, candidates: seq<string>, precise: seq<string>)
    ensures var (found, byPrecise) := ByTier(lookup, reexports, candidates, precise);
            && (byPrecise <==> && (forall j | 0 <= j < |candidates| :: LeadsNowhere(lookup, reexports, candidates[j]))
                               && exists j :: 0 <= j < |precise| && !LeadsNowhere(lookup, reexports, precise[j]))
            && (!byPrecise ==> found == ByTier(lookup, reexports, candidates, []).0)
            && (byPrecise ==> found.Some? && Denotes(lookup, reexports, precise, found.value))
  {
    FirstOfTier(lookup, reexports, candidates);
    FirstOfTier(lookup, reexports, precise);
    var hit, better := ExactOrReexport(lookup, reexports, candidates), ExactOrReexport(lookup, reexports, precise);
    if hit.Some? {
      var i :| && 0 <= i < |candidates| && LeadsTo(lookup, reexports, candidates[i], hit.value)
               && forall j | 0 <= j < i :: LeadsNowhere(lookup, reexports, candidates[j]);
      OneWay(lookup, reexports, candidates[i], hit.value, hit.value);
    }
    if better.Some? {
      var i :| && 0 <= i < |precise| && LeadsTo(lookup, reexports, precise[i], better.value)
               && forall j | 0 <= j < i :: LeadsNowhere(lookup, reexports, precise[j]);
      OneWay(lookup, reexports, precise[i], better.value, better.value);
    }
  }

  lemma NothingIsNothing(lookup: Lookup, reexports: Reexports, candidates: seq<string>, pk: nat)
    requires DenotesNothing(lookup, reexports, candidates)
    ensures !Denotes(lookup, reexports, candidates, pk)
  {
    forall k | 0 <= k < |candidates|
      ensures !LeadsTo(lookup, reexports, candidates[k], pk)
    {
      NowhereIsNotThere(lookup, reexports, candidates[k], pk);
    }
  }

  /* ---- resolving ---- */

  predicate LiveAs(symbols: Symbols, u: Uid, pk: nat) {
    u in symbols && !symbols[u].deleted && symbols[u].pk == pk
  }

  /** A relation of a live source whose candidates denote another symbol is this edge. */
  ghost predicate Makes(scope: Scope, src: Uid, kind: string, candidates: seq<string>, e: Edge) {
    && LiveAs(scope.symbols, src, e.src) && e.kind == kind && e.dst != e.src
    && Denotes(scope.lookup, scope.reexports, candidates, e.dst)
  }

  /** A relation of a live source whose candidates denote nothing, or the source itself, has to wait. */
  ghost predicate HasToWait(scope: Scope, src: Uid, candidates: seq<string>) {
    && src in scope.symbols && !scope.symbols[src].deleted
    && (|| DenotesNothing(scope.lookup, scope.reexports, candidates)
        || Denotes(scope.lookup, scope.reexports, candidates, scope.symbols[src].pk))
  }

  lemma OneRelation(g: Graph, scope: Scope, rel: Pending, e: Edge)
    ensures var b := ResolvedOne(g, scope, rel);
            && (e in b.edges <==> e in g.edges || Makes(scope, rel.src, rel.kind, rel.candidates, e))
            && b.calls == g.calls + if HasToWait(scope, rel.src, rel.candidates)
                                    then [OpenCall(rel.file, rel.src, rel.kind, rel.candidates, true)] else []
  {
    ByTierDenotes(scope.lookup, scope.reexports, rel.candidates);
    ByTierIff(scope.lookup, scope.reexports, rel.candidates, e.dst);
    if rel.src in scope.symbols {
      ByTierIff(scope.lookup, scope.reexports, rel.candidates, scope.symbols[rel.src].pk);
    }
  }

  /** Resolving adds exactly the edges that the pending relations make; the others stay. */
  lemma {:induction false} ResolvedEdgesAre(g: Graph, scope: Scope, pending: seq<Pending>, e: Edge)
    ensures e in Resolved(g, scope, pending).edges
       <==> e in g.edges || exists i :: 0 <= i < |pending|
                                        && Makes(scope, pending[i].src, pending[i].kind, pending[i].candidates, e)
  {
    if pending != [] {
      var n := |pending| - 1;
      ResolvedEdgesAre(g, scope, pending[..n], e);
      OneRelation(Resolved(g, scope, pending[..n]), scope, pending[n], e);
    }
  }

  function WaitingRow(rel: Pending): OpenCall {
    OpenCall(rel.file, rel.src, rel.kind, rel.candidates, true)
  }

  /** The places of the pending relations that become this row. */
  ghost function WaitingAt(scope: Scope, pending: seq<Pending>, call: OpenCall): set<nat> {
    set i: nat | i < |pending| && HasToWait(scope, pending[i].src, pending[i].candidates) && WaitingRow(pending[i]) == call
  }

  lemma WaitingAtNext(scope: Scope, pending: seq<Pending>, call: OpenCall)
    requires pending != []
    ensures var n := |pending| - 1;
            |WaitingAt(scope, pending, call)|
            == |WaitingAt(scope, pending[..n], call)|
               + if HasToWait(scope, pending[n].src, pending[n].candidates) && WaitingRow(pending[n]) == call then 1 else 0
  {
    var n := |pending| - 1;
    var before, after := WaitingAt(scope, pending[..n], call), WaitingAt(scope, pending, call);
    forall i: nat
      ensures i in after <==> i in before || (i == n && HasToWait(scope, pending[n].src, pending[n].candidates)
                                              && WaitingRow(pending[n]) == call)
    {
    }
    if HasToWait(scope, pending[n].src, pending[n].candidates) && WaitingRow(pending[n]) == call {
      assert after == before + {n};
    } else {
      assert after == before;
    }
  }

  /** Every relation that has to wait becomes one open row; the old rows stay in front, and there are no others. */
  lemma {:induction false} ResolvedRowsAre(g: Graph, scope: Scope, pending: seq<Pending>, call: OpenCall)
    ensures g.calls <= Resolved(g, scope, pending).calls
    ensures multiset(Resolved(g, scope, pending).calls)[call]
         == multiset(g.calls)[call] + |WaitingAt(scope, pending, call)|
  {
    if pending == [] {
      assert WaitingAt(scope, pending, call) == {};
    } else {
      var n := |pending| - 1;
      ResolvedRowsAre(g, scope, pending[..n], call);
      WaitingAtNext(scope, pending, call);
      var before := Resolved(g, scope, pending[..n]);
      OneRelation(before, scope, pending[n], Edge(0, 0, ""));
    }
  }

  /** A relation with a live source ends as its edge, or as a row; never as both, and never as neither. */
  lemma NoRelationIsLost(g: Graph, scope: Scope, pending: seq<Pending>, i: nat)
    requires i < |pending| && pending[i].src in scope.symbols && !scope.symbols[pending[i].src].deleted
    ensures var rel, b := pending[i], Resolved(g, scope, pending);
            || (HasToWait(scope, rel.src, rel.candidates) && WaitingRow(rel) in b.calls)
            || (exists dst :: && dst != scope.symbols[rel.src].pk && Denotes(scope.lookup, scope.reexports, rel.candidates, dst)
                              && Edge(scope.symbols[rel.src].pk, dst, rel.kind) in b.edges)
  {
    var rel := pending[i];
    var pk := scope.symbols[rel.src].pk;
    ByTierDenotes(scope.lookup, scope.reexports, rel.candidates);
    if HasToWait(scope, rel.src, rel.candidates) {
      ResolvedRowsAre(g, scope, pending, WaitingRow(rel));
      assert i in WaitingAt(scope, pending, WaitingRow(rel));
    } else {
      var dst := ByTier(scope.lookup, scope.reexports, rel.candidates, []).0.value;
      ResolvedEdgesAre(g, scope, pending, Edge(pk, dst, rel.kind));
      assert Makes(scope, rel.src, rel.kind, rel.candidates, Edge(pk, dst, rel.kind));
    }
  }

  /* ---- backfilling ---- */

  lemma OneRow(g: Graph, scope: Scope, i: nat, e: Edge)
    requires i < |g.calls|
    ensures var b, call := BackfilledOne(g, scope, i), g.calls[i];
            && |b.calls| == |g.calls| && (forall j | 0 <= j < |g.calls| && j != i :: b.calls[j] == g.calls[j])
            && (e in b.edges <==> e in g.edges || Makes(scope, call.src, call.kind, call.candidates, e))
            && b.calls[i] == call.(open := b.calls[i].open)
  {
    ByTierDenotes(scope.lookup, scope.reexports, g.calls[i].candidates);
    ByTierIff(scope.lookup, scope.reexports, g.calls[i].candidates, e.dst);
  }

  /** A backfill adds exactly the edges that its rows make. */
  lemma {:induction false} BackfilledEdgesAre(g: Graph, scope: Scope, rows: seq<nat>, e: Edge)
    requires forall k | 0 <= k < |rows| :: rows[k] < |g.calls|
    ensures e in Backfilled(g, scope, rows).edges
       <==> e in g.edges || exists k :: 0 <= k < |rows| && var call := g.calls[rows[k]];
                                                          Makes(scope, call.src, call.kind, call.candidates, e)
  {
    if rows != [] {
      var n := |rows| - 1;
      BackfilledEdgesAre(g, scope, rows[..n], e);
      BackfillAdvances(g, scope, rows[..n]);
      OneRow(Backfilled(g, scope, rows[..n]), scope, rows[n], e);
    }
  }

  /** The row closes: its source is gone, or it makes an edge that is not there yet. */
  ghost predicate Closes(g: Graph, scope: Scope, call: OpenCall) {
    || !(call.src in scope.symbols && !scope.symbols[call.src].deleted)
    || exists e :: Makes(scope, call.src, call.kind, call.candidates, e) && e !in g.edges
  }

  lemma OneRowCloses(g: Graph, scope: Scope, i: nat)
    requires i < |g.calls| && g.calls[i].open
    ensures BackfilledOne(g, scope, i).calls[i].open <==> !Closes(g, scope, g.calls[i])
  {
    var call := g.calls[i];
    ByTierDenotes(scope.lookup, scope.reexports, call.candidates);
    if call.src in scope.symbols && !scope.symbols[call.src].deleted {
      var dst := Target(scope, call.candidates, scope.symbols[call.src].pk);
      forall e
        ensures Makes(scope, call.src, call.kind, call.candidates, e)
           <==> dst.Some? && e == Edge(scope.symbols[call.src].pk, dst.value, call.kind)
      {
        ByTierIff(scope.lookup, scope.reexports, call.candidates, e.dst);
      }
    }
  }

  /** At its turn, with the edges of the rows before it, each row of a backfill closes exactly then; others stay as they are. */
  lemma {:induction false} BackfilledRowsAre(g: Graph, scope: Scope, rows: seq<nat>, k: nat)
    requires (forall j | 0 <= j < |rows| :: rows[j] < |g.calls|) && Distinct(rows) && k < |rows| && g.calls[rows[k]].open
    ensures var b := Backfilled(g, scope, rows);
            && |b.calls| == |g.calls|
            && b.calls[rows[k]] == g.calls[rows[k]].(open := !Closes(Backfilled(g, scope, rows[..k]), scope, g.calls[rows[k]]))
    decreases |rows|
  {
    var n := |rows| - 1;
    BackfillAdvances(g, scope, rows[..n]);
    if k < n {
      BackfilledRowsAre(g, scope, rows[..n], k);
      assert rows[..n][..k] == rows[..k];
    } else {
      var before := Backfilled(g, scope, rows[..n]);
      assert rows[n] !in rows[..n];
      OneRowCloses(before, scope, rows[n]);
      OneRow(before, scope, rows[n], Edge(0, 0, ""));
    }
  }

  /* ---- the last transaction ---- */

  /** Why the last transaction backfills: it was forced, symbols were added or removed, or edges were queued. */
  predicate Occasions(o: Occasion, queued: nat) {
    o.force || o.symbolsRemoved || queued > 0 || o.after > o.before
  }

  /**
   Whether it looks at an open row: at all of them, unless symbols were only added to an index that had some; then at
   those that mention one of at most a hundred new names.
   */
  predicate LooksAt(o: Occasion, queued: nat, mentions: (OpenCall, string) -> bool, call: OpenCall) {
    && Occasions(o, queued) && call.open
    && (|| o.force || o.symbolsRemoved || queued > 0 || o.before == 0 || |o.newNames| > 100
        || exists name :: name in o.newNames && mentions(call, name))
  }

  lemma WantedIff(o: Occasion, queued: nat, mentions: (OpenCall, string) -> bool, call: OpenCall)
    requires Occasions(o, queued)
    ensures Wanted(call, NameFilter(o, queued), mentions) <==> LooksAt(o, queued, mentions, call)
  {
  }

  lemma BackfillRowsAre(calls: seq<OpenCall>, o: Occasion, queued: nat, mentions: (OpenCall, string) -> bool)
    returns (rows: seq<nat>)
    ensures rows == if Backfills(o, queued) then Selected(calls, NameFilter(o, queued), mentions) else []
    ensures (forall k | 0 <= k < |rows| :: rows[k] < |calls|) && Distinct(rows)
    ensures forall i: nat | i < |calls| :: i in rows <==> LooksAt(o, queued, mentions, calls[i])
  {
    if Occasions(o, queued) {
      rows := Selected(calls, NameFilter(o, queued), mentions);
      SelectedRows(calls, NameFilter(o, queued), mentions);
      forall i: nat | i < |calls|
        ensures i in rows <==> LooksAt(o, queued, mentions, calls[i])
      {
        WantedIff(o, queued, mentions, calls[i]);
      }
    } else {
      rows := [];
    }
  }

  /** The last transaction resolves, repairs, and then backfills over just those rows. */
  lemma FinalPassIs(g: Graph, scope: Scope, pending: seq<Pending>, dead: seq<DeadRow>, o: Occasion,
                    mentions: (OpenCall, string) -> bool) returns (rows: seq<nat>)
    ensures var repaired := Repaired(Resolved(g, scope, pending), dead);
            && (forall k | 0 <= k < |rows| :: rows[k] < |repaired.calls|) && Distinct(rows)
            && FinalPass(g, scope, pending, dead, o, mentions) == Backfilled(repaired, scope, rows)
            && forall i: nat | i < |repaired.calls| :: i in rows <==> LooksAt(o, |dead|, mentions, repaired.calls[i])
  {
    rows := BackfillRowsAre(Repaired(Resolved(g, scope, pending), dead).calls, o, |dead|, mentions);
  }

  /** An edge to a live symbol that is there after resolving is there after the whole transaction. */
  lemma LiveEdgesStay(g: Graph, ix: Index, scope: Scope, pending: seq<Pending>, dead: seq<DeadRow>, o: Occasion,
                      mentions: (OpenCall, string) -> bool, e: Edge)
    requires scope.symbols == ix.symbols && PksOk(ix.symbols, ix.nextPk)
    requires ListsDead(dead, ix, Resolved(g, scope, pending).edges)
    requires e in Resolved(g, scope, pending).edges && IsLivePk(ix.symbols, e.dst)
    ensures e in FinalPass(g, scope, pending, dead, o, mentions).edges
  {
    var resolved := Resolved(g, scope, pending);
    RepairedExactly(resolved, dead);
    forall r | r in dead
      ensures r.edge != e
    {
      assert Describes(r, ix);
      DeadIsNotLive(ix.symbols, ix.nextPk, r.edge.dst);
    }
    var rows := FinalPassIs(g, scope, pending, dead, o, mentions);
    BackfilledEdgesAre(Repaired(resolved, dead), scope, rows, e);
  }

  /** So every relation that resolves is an edge when the reindex is done. */
  lemma ResolvedRelationsLand(g: Graph, ix: Index, scope: Scope, pending: seq<Pending>, dead: seq<DeadRow>, o: Occasion,
                              mentions: (OpenCall, string) -> bool, suffixOf: (string, string) -> bool, i: nat, e: Edge)
    requires scope.symbols == ix.symbols && PksOk(ix.symbols, ix.nextPk) && Sound(scope.lookup, scope.symbols, suffixOf)
    requires ListsDead(dead, ix, Resolved(g, scope, pending).edges)
    requires i < |pending| && Makes(scope, pending[i].src, pending[i].kind, pending[i].candidates, e)
    ensures e in FinalPass(g, scope, pending, dead, o, mentions).edges
  {
    ResolvedEdgesAre(g, scope, pending, e);
    ByTierIff(scope.lookup, scope.reexports, pending[i].candidates, e.dst);
    TargetIsLive(scope.lookup, scope.reexports, pending[i].candidates, [], scope.symbols, suffixOf);
    LiveEdgesStay(g, ix, scope, pending, dead, o, mentions, e);
  }

  /* ---- file events ---- */

  /** A relation of the parse between two symbols it declares is this edge. */
  ghost predicate NamedBy(symbols: Symbols, p: Parse, e: Edge) {
    exists r :: && r in p.relations && r.src in Declared(p) && r.dst in Declared(p)
                && r.src in symbols && r.dst in symbols
                && e == Edge(symbols[r.src].pk, symbols[r.dst].pk, r.kind)
  }

  /** A parse clears the parsed kinds of edges of the symbols that the file defined, and lands those that it names. */
  lemma ParsedEdgesAre(g: Graph, ix: Index, f: Path, p: Parse, e: Edge)
    ensures e in GraphAfter(g, ix, Parsed(f, p)).edges
       <==> || NamedBy(After(ix, Parsed(f, p)).symbols, p, e)
            || (e in g.edges && !(e.kind in {"calls", "imports", "inherits", "contains"} && Defines(ix.occurrences, f, e.src)))
  {
    LandedAfter(ix, f, p);
    DefinedPk(ix.occurrences, f, e.src);
  }

  lemma DefinedPk(occurrences: set<Occurrence>, f: Path, pk: nat)
    ensures pk in DefinedPksIn(occurrences, f) <==> Defines(occurrences, f, pk)
  {
    if Defines(occurrences, f, pk) {
      assert Occurrence(pk, f, true).pk in DefinedPksIn(occurrences, f);
    }
  }

  /** A file that goes takes all edges of the symbols it defined. */
  lemma TombstonedEdgesAre(g: Graph, ix: Index, e: Event, edge: Edge)
    requires e.Unreadable? || (e.Removed? && e.file in ix.files)
    ensures edge in GraphAfter(g, ix, e).edges <==> edge in g.edges && !Defines(ix.occurrences, e.file, edge.src)
  {
    DefinedPk(ix.occurrences, e.file, edge.src);
  }

  /** A parse and the end of a file take the open rows of the file, and no others; nothing else touches edges or rows. */
  lemma EventRowsAre(g: Graph, ix: Index, e: Event, call: OpenCall)
    ensures var b := GraphAfter(g, ix, e);
            if e.Parsed? || e.Unreadable? || (e.Removed? && e.file in ix.files)
            then multiset(b.calls)[call] == if call.file == e.file then 0 else multiset(g.calls)[call]
            else b == g
  {
    if e.Parsed? || e.Unreadable? || e.Removed? {
      CallsOutsideAreKept(g.calls, e.file, call);
    }
  }
}
