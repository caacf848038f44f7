/**
 The index as tables that are updated in place (`code_index/pipeline.py`,
 `code_index/relation_resolver.py`). Each method ends in the tables that
 `FileIndex` and `Relations` describe.
 */
module IndexStore {
  import opened Options
  import opened FileIndex
  import opened Resolver
  import opened Relations

  /** The chunks after the first drafts of a parse. */
  function ReconciledSoFar(chunks: Chunks, f: Path, drafts: seq<ChunkDraft>): Chunks {
    map k | k in chunks.Keys + TagKeys(f, drafts) ::
      if k.file == f && HasTag(drafts, k.tag) then ChunkAfter(chunks, k, DraftOf(drafts, k.tag)) else chunks[k]
  }

  function TombstonedIn(chunks: Chunks, ks: set<ChunkKey>): Chunks {
    map k | k in chunks :: if k in ks then Tombstoned(chunks[k]) else chunks[k]
  }

  lemma HasTagNext(f: Path, drafts: seq<ChunkDraft>, i: nat, tag: string)
    requires i < |drafts| && DistinctTags(drafts)
    ensures HasTag(drafts[..i + 1], tag) <==> HasTag(drafts[..i], tag) || tag == drafts[i].tag
    ensures tag == drafts[i].tag ==> !HasTag(drafts[..i], tag) && DraftOf(drafts[..i + 1], tag) == drafts[i]
    ensures HasTag(drafts[..i], tag) ==> DraftOf(drafts[..i + 1], tag) == DraftOf(drafts[..i], tag)
    ensures TagKeys(f, drafts[..i + 1]) == TagKeys(f, drafts[..i]) + {ChunkKey(f, drafts[i].tag)}
  {
    var now, before := drafts[..i + 1], drafts[..i];
    assert now[..i] == before && now == before + [drafts[i]];
    if HasTag(before, tag) {
      var d :| d in before && d.tag == tag;
      assert d in now;
    }
    if tag == drafts[i].tag {
      assert drafts[i] in now;
    }
  }

  lemma UntouchedSoFar(chunks: Chunks, f: Path, drafts: seq<ChunkDraft>, i: nat)
    requires i < |drafts| && DistinctTags(drafts)
    ensures var k := ChunkKey(f, drafts[i].tag);
            var before := ReconciledSoFar(chunks, f, drafts[..i]);
            (k in before <==> k in chunks) && (k in chunks ==> before[k] == chunks[k])
  {
    HasTagNext(f, drafts, i, drafts[i].tag);
    forall d | d in drafts[..i]
      ensures d.tag != drafts[i].tag
    {
    }
  }

  lemma SoFarAt(chunks: Chunks, f: Path, drafts: seq<ChunkDraft>, i: nat, j: ChunkKey)
    requires i < |drafts| && DistinctTags(drafts)
    ensures var k := ChunkKey(f, drafts[i].tag);
            var before, after := ReconciledSoFar(chunks, f, drafts[..i]), ReconciledSoFar(chunks, f, drafts[..i + 1]);
            && (j in after <==> j in before || j == k)
            && (j in after ==> after[j] == if j == k then ChunkAfter(chunks, k, drafts[i]) else before[j])
  {
    HasTagNext(f, drafts, i, j.tag);
  }

  lemma SoFarNext(chunks: Chunks, f: Path, drafts: seq<ChunkDraft>, i: nat)
    requires i < |drafts| && DistinctTags(drafts)
    ensures var k := ChunkKey(f, drafts[i].tag);
            var before := ReconciledSoFar(chunks, f, drafts[..i]);
            ReconciledSoFar(chunks, f, drafts[..i + 1]) == before[k := ChunkAfter(chunks, k, drafts[i])]
  {
    var k := ChunkKey(f, drafts[i].tag);
    var before, after := ReconciledSoFar(chunks, f, drafts[..i]), ReconciledSoFar(chunks, f, drafts[..i + 1]);
    forall j: ChunkKey
      ensures j in after <==> j in before || j == k
      ensures j in after ==> after[j] == if j == k then ChunkAfter(chunks, k, drafts[i]) else before[j]
    {
      SoFarAt(chunks, f, drafts, i, j);
    }
    UpdatedAt(before, after, k, ChunkAfter(chunks, k, drafts[i]));
  }

  lemma UpdatedAt<K, V>(before: map<K, V>, after: map<K, V>, k: K, v: V)
    requires forall j :: j in after <==> j in before || j == k
    requires forall j :: j in after ==> after[j] == if j == k then v else before[j]
    ensures after == before[k := v]
  {
  }

  lemma FreshNext(embeddings: Embeddings, chunks: Chunks, f: Path, drafts: seq<ChunkDraft>, i: nat)
    requires i < |drafts| && DistinctTags(drafts)
    ensures var k := ChunkKey(f, drafts[i].tag);
            var before := FreshEmbeddings(embeddings, chunks, f, drafts[..i]);
            FreshEmbeddings(embeddings, chunks, f, drafts[..i + 1])
            == if k in chunks && Differs(chunks[k], drafts[i]) then map e | e in before && e.chunk != k :: before[e]
               else before
  {
    forall k: ChunkKey
      ensures Stale(chunks, f, drafts[..i + 1], k)
         <==> || Stale(chunks, f, drafts[..i], k)
              || (k == ChunkKey(f, drafts[i].tag) && k in chunks && Differs(chunks[k], drafts[i]))
    {
      HasTagNext(f, drafts, i, k.tag);
    }
  }

  predicate DefinedIn(occurrences: set<Occurrence>, files: map<Path, bool>, pk: nat) {
    exists o :: o in occurrences && o.definition && o.pk == pk && o.file in files && !files[o.file]
  }

  class Store {
    var files: map<Path, bool>
    var symbols: Symbols
    var nextPk: nat
    var occurrences: set<Occurrence>
    var chunks: Chunks
    var embeddings: Embeddings
    var edges: set<Edge>
    var calls: seq<OpenCall>

    constructor ()
      ensures Tables() == EMPTY && Network() == Graph({}, [])
    {
      files, symbols, nextPk, occurrences := map[], map[], 1, {};
      chunks, embeddings, edges, calls := map[], map[], {}, [];
    }

    function Tables(): Index
      reads this
    {
      Index(files, symbols, nextPk, occurrences, chunks, embeddings)
    }

    function Network(): Graph
      reads this
    {
      Graph(edges, calls)
    }

    /* ---- symbols ---- */

    method UpsertSymbol(d: SymbolDraft) returns (pk: nat, newlyAvailable: bool)
      modifies this`symbols, this`nextPk
      ensures symbols == Upserted(old(symbols), old(nextPk), d)
      ensures nextPk == NextPk(old(symbols), old(nextPk), d)
      ensures pk == symbols[d.uid].pk
      ensures newlyAvailable <==> d.uid !in old(symbols) || old(symbols)[d.uid].deleted
    {
      if d.uid !in symbols {
        pk := nextPk;
        symbols, nextPk := symbols[d.uid := Symbol(pk, d.canonical, d.display, false)], nextPk + 1;
        return pk, true;
      }
      var row := symbols[d.uid];
      symbols := symbols[d.uid := Symbol(row.pk, d.canonical, d.display, false)];
      return row.pk, row.deleted;
    }

    method UpsertSymbols(drafts: seq<SymbolDraft>) returns (uidToPk: map<Uid, nat>)
      modifies this`symbols, this`nextPk
      ensures (symbols, nextPk) == UpsertAll(old(symbols), old(nextPk), drafts)
      ensures uidToPk.Keys == Uids(drafts)
      ensures forall u | u in uidToPk :: u in symbols && uidToPk[u] == symbols[u].pk
    {
      uidToPk := map[];
      for i := 0 to |drafts|
        invariant (symbols, nextPk) == UpsertAll(old(symbols), old(nextPk), drafts[..i])
        invariant uidToPk.Keys == Uids(drafts[..i])
        invariant forall u | u in uidToPk :: u in symbols && uidToPk[u] == symbols[u].pk
      {
        assert drafts[..i + 1][..i] == drafts[..i];
        UidsNext(drafts[..i + 1]);
        var pk, _ := UpsertSymbol(drafts[i]);
        uidToPk := uidToPk[drafts[i].uid := pk];
      }
      assert drafts[..|drafts|] == drafts;
    }

    method InsertOccurrences(f: Path, p: Parse, uidToPk: map<Uid, nat>)
      requires uidToPk.Keys == Declared(p) <= symbols.Keys
      requires forall u | u in uidToPk :: uidToPk[u] == symbols[u].pk
      modifies this`occurrences
      ensures occurrences == old(occurrences) + Found(symbols, f, p)
    {
      ghost var found: set<Occurrence> := {};
      for i := 0 to |p.occurrences|
        invariant occurrences == old(occurrences) + found
        invariant found == set o | o in p.occurrences[..i] && o.uid in Declared(p) ::
                                     Occurrence(symbols[o.uid].pk, f, o.definition)
      {
        var o := p.occurrences[i];
        assert p.occurrences[..i + 1] == p.occurrences[..i] + [o];
        if o.uid in uidToPk {
          occurrences := occurrences + {Occurrence(uidToPk[o.uid], f, o.definition)};
          found := found + {Occurrence(uidToPk[o.uid], f, o.definition)};
        }
      }
      assert p.occurrences[..|p.occurrences|] == p.occurrences;
    }

    method InsertRelations(p: Parse, uidToPk: map<Uid, nat>)
      requires uidToPk.Keys == Declared(p) <= symbols.Keys
      requires forall u | u in uidToPk :: uidToPk[u] == symbols[u].pk
      modifies this`edges
      ensures edges == old(edges) + Landed(symbols, p)
    {
      ghost var landed: set<Edge> := {};
      for i := 0 to |p.relations|
        invariant edges == old(edges) + landed
        invariant landed == set r | r in p.relations[..i] && r.src in Declared(p) && r.dst in Declared(p) ::
                                      Edge(symbols[r.src].pk, symbols[r.dst].pk, r.kind)
      {
        var r := p.relations[i];
        assert p.relations[..i + 1] == p.relations[..i] + [r];
        if r.src in uidToPk && r.dst in uidToPk {
          edges := edges + {Edge(uidToPk[r.src], uidToPk[r.dst], r.kind)};
          landed := landed + {Edge(uidToPk[r.src], uidToPk[r.dst], r.kind)};
        }
      }
      assert p.relations[..|p.relations|] == p.relations;
    }

    method BurySymbols(gone: set<nat>)
      modifies this`symbols
      ensures symbols == Buried(old(symbols), gone)
    {
      var todo := gone;
      while todo != {}
        invariant todo <= gone
        invariant symbols == Buried(old(symbols), gone - todo)
        decreases |todo|
      {
        var pk :| pk in todo;
        symbols := map u | u in symbols :: if symbols[u].pk == pk then symbols[u].(deleted := true) else symbols[u];
        todo := todo - {pk};
      }
      assert gone - todo == gone;
    }

    /* ---- chunks ---- */

    method ReconcileChunk(k: ChunkKey, d: ChunkDraft, existing: Chunks)
      requires k in existing ==> k in chunks && chunks[k] == existing[k]
      modifies this`chunks, this`embeddings
      ensures k in chunks || k in existing
      ensures chunks == old(chunks)[k := ChunkAfter(existing, k, d)]
      ensures embeddings == if k in existing && Differs(existing[k], d)
                            then map e | e in old(embeddings) && e.chunk != k :: old(embeddings)[e]
                            else old(embeddings)
    {
      if k !in existing {
        chunks := chunks[k := Chunk(d.raw, d.norm, 0, false, [Create(d.raw)])];
        return;
      }
      var row := existing[k];
      if row.raw == d.raw && row.norm == d.norm && !row.deleted {
        assert chunks == chunks[k := row];
        return;
      }
      chunks := chunks[k := Chunk(d.raw, d.norm, row.edits + 1, false, row.log + [Update(row.raw, d.raw)])];
      embeddings := map e | e in embeddings && e.chunk != k :: embeddings[e];
    }

    method ReconcileChunks(f: Path, drafts: seq<ChunkDraft>)
      requires DistinctTags(drafts)
      modifies this`chunks, this`embeddings
      ensures chunks == ReconciledSoFar(old(chunks), f, drafts)
      ensures embeddings == FreshEmbeddings(old(embeddings), old(chunks), f, drafts)
    {
      var existing := chunks;
      for i := 0 to |drafts|
        invariant chunks == ReconciledSoFar(existing, f, drafts[..i])
        invariant embeddings == FreshEmbeddings(old(embeddings), existing, f, drafts[..i])
      {
        UntouchedSoFar(existing, f, drafts, i);
        SoFarNext(existing, f, drafts, i);
        FreshNext(old(embeddings), existing, f, drafts, i);
        ReconcileChunk(ChunkKey(f, drafts[i].tag), drafts[i], existing);
      }
      assert drafts[..|drafts|] == drafts;
    }

    method TombstoneChunks(ks: set<ChunkKey>)
      requires ks <= chunks.Keys
      modifies this`chunks
      ensures chunks == TombstonedIn(old(chunks), ks)
    {
      var todo := ks;
      while todo != {}
        invariant todo <= ks
        invariant chunks == TombstonedIn(old(chunks), ks - todo)
        decreases |todo|
      {
        var k :| k in todo;
        if !chunks[k].deleted {
          chunks := chunks[k := chunks[k].(deleted := true, log := chunks[k].log + [Delete(chunks[k].raw)])];
        }
        todo := todo - {k};
      }
      assert ks - todo == ks;
    }

    /* ---- files ---- */

    method ClearRelationsForFile(f: Path)
      modifies this`edges, this`calls
      ensures Network() == Cleared(old(Network()), occurrences, f)
    {
      var pks := DefinedPksIn(occurrences, f);
      edges := set e | e in edges && !(e.kind in PARSED_KINDS && e.src in pks);
      calls := CallsOutside(calls, f);
    }

    method ApplyParsedFile(f: Path, p: Parse)
      requires DistinctTags(p.chunks)
      modifies this
      ensures Tables() == Applied(old(Tables()), f, p)
      ensures calls == old(calls)
      ensures UpsertAll(old(symbols), old(nextPk), p.symbols).0.Keys >= Declared(p)
      ensures edges == old(edges) + Landed(UpsertAll(old(symbols), old(nextPk), p.symbols).0, p)
    {
      UpsertAllDeclares(symbols, nextPk, p.symbols);
      AppliedParts(Tables(), f, p);
      occurrences := Without(occurrences, f);
      var uidToPk := UpsertSymbols(p.symbols);
      InsertOccurrences(f, p, uidToPk);
      InsertRelations(p, uidToPk);
      ApplyChunks(f, p.chunks);
      BurySymbols(Orphans(symbols, occurrences, p));
    }

    method ApplyChunks(f: Path, drafts: seq<ChunkDraft>)
      requires DistinctTags(drafts)
      modifies this`chunks, this`embeddings
      ensures chunks == ReconciledChunks(old(chunks), f, drafts)
      ensures embeddings == FreshEmbeddings(old(embeddings), old(chunks), f, drafts)
    {
      ReconcileChunks(f, drafts);
      TombstoneChunks(set k | k in chunks && k.file == f && !HasTag(drafts, k.tag));
      MissingAreTombstoned(old(chunks), f, drafts);
    }

    /** The symbols among `pks` that no undeleted file defines. */
    method Undefined(pks: set<nat>) returns (gone: set<nat>)
      ensures gone == set pk | pk in pks && !DefinedIn(occurrences, files, pk)
    {
      gone := {};
      var todo := pks;
      while todo != {}
        invariant todo <= pks
        invariant gone == set pk | pk in pks - todo && !DefinedIn(occurrences, files, pk)
        decreases |todo|
      {
        var pk :| pk in todo;
        if !DefinedIn(occurrences, files, pk) {
          gone := gone + {pk};
        }
        todo := todo - {pk};
      }
    }

    /** `_tombstone_file`. */
    method TombstoneFile(f: Path)
      requires f in files
      modifies this
      ensures Tables() == FileTombstoned(old(Tables()), f)
      ensures Network() == Orphaned(old(Network()), old(occurrences), f)
    {
      var definitionPks := DefinedPksIn(occurrences, f);
      files := files[f := true];
      calls := CallsOutside(calls, f);
      occurrences := Without(occurrences, f);
      TombstoneChunks(set k | k in chunks && k.file == f);
      var gone := Undefined(definitionPks);
      HomelessAre(old(Tables()), f, gone, occurrences, files);
      BurySymbols(gone);
      edges := set e | e in edges && e.src !in definitionPks;
      assert chunks == TombstonedChunks(old(chunks), f);
    }

    /* ---- the last transaction ---- */

    method InsertRelation(src: nat, dst: nat, kind: string) returns (inserted: bool)
      modifies this`edges
      ensures inserted <==> src != dst && Edge(src, dst, kind) !in old(edges)
      ensures edges == if src == dst then old(edges) else old(edges) + {Edge(src, dst, kind)}
    {
      if src == dst {
        return false;
      }
      inserted := Edge(src, dst, kind) !in edges;
      edges := edges + {Edge(src, dst, kind)};
    }

    method ResolvePending(pending: seq<Pending>, lookup: Lookup, reexports: Reexports)
      modifies this`edges, this`calls
      ensures Network() == Resolved(old(Network()), Scope(symbols, lookup, reexports), pending)
    {
      var scope := Scope(symbols, lookup, reexports);
      for i := 0 to |pending|
        invariant Network() == Resolved(old(Network()), scope, pending[..i])
      {
        var rel := pending[i];
        assert pending[..i + 1][..i] == pending[..i];
        if rel.src !in symbols || symbols[rel.src].deleted {
          continue;
        }
        var src := symbols[rel.src].pk;
        var dst, _ := TryResolveWithJedi(lookup, reexports, rel.candidates, []);
        if dst.None? || dst.value == src {
          calls := calls + [OpenCall(rel.file, rel.src, rel.kind, rel.candidates, true)];
          continue;
        }
        var _ := InsertRelation(src, dst.value, rel.kind);
      }
      assert pending[..|pending|] == pending;
    }

    method RepairDeadEdges(dead: seq<DeadRow>) returns (queued: nat)
      modifies this`edges, this`calls
      ensures Network() == Repaired(old(Network()), dead)
      ensures queued == |dead|
    {
      queued := 0;
      for i := 0 to |dead|
        invariant Network() == Repaired(old(Network()), dead[..i])
        invariant queued == i
      {
        var row := dead[i];
        assert dead[..i + 1][..i] == dead[..i];
        var candidates := [row.canonical];
        if row.display != "" && row.display != row.canonical {
          candidates := candidates + [row.display];
        }
        assert candidates == Queued(row).candidates;
        calls := calls + [OpenCall(row.file, row.src, row.edge.kind, candidates, true)];
        edges := edges - {row.edge};
        queued := queued + 1;
      }
      assert dead[..|dead|] == dead;
    }

    method BackfillUnresolved(rows: seq<nat>, lookup: Lookup, reexports: Reexports)
      requires forall k | 0 <= k < |rows| :: rows[k] < |calls|
      modifies this`edges, this`calls
      ensures Network() == Backfilled(old(Network()), Scope(symbols, lookup, reexports), rows)
    {
      var scope := Scope(symbols, lookup, reexports);
      for i := 0 to |rows|
        invariant |calls| == |old(calls)|
        invariant Network() == Backfilled(old(Network()), scope, rows[..i])
      {
        var row := rows[i];
        var call := calls[row];
        assert rows[..i + 1][..i] == rows[..i];
        if call.src !in symbols || symbols[call.src].deleted {
          calls := calls[row := call.(open := false)];
          continue;
        }
        var src := symbols[call.src].pk;
        var dst, _ := TryResolveWithJedi(lookup, reexports, call.candidates, []);
        if dst.None? || dst.value == src {
          continue;
        }
        var inserted := InsertRelation(src, dst.value, call.kind);
        if inserted {
          calls := calls[row := call.(open := false)];
        }
      }
      assert rows[..|rows|] == rows;
    }

    /** The final transaction of `_reindex_body`; `dead` is what the query of the repair returns. */
    method FinishReindex(pending: seq<Pending>, dead: seq<DeadRow>, lookup: Lookup, reexports: Reexports,
                         o: Occasion, mentions: (OpenCall, string) -> bool)
      modifies this`edges, this`calls
      ensures Network() == FinalPass(old(Network()), Scope(symbols, lookup, reexports), pending, dead, o, mentions)
    {
      ResolvePending(pending, lookup, reexports);
      var queued := RepairDeadEdges(dead);
      if o.force || o.after > o.before || o.symbolsRemoved || queued > 0 {
        var names := if o.force || o.symbolsRemoved || queued > 0 || o.before == 0 then None else Some(o.newNames);
        var rows := Selected(calls, names, mentions);
        BackfillUnresolved(rows, lookup, reexports);
      }
    }

    /** One file event of a reindex, or one embedded chunk. */
    method Handle(e: Event)
      requires e.Parsed? ==> DistinctTags(e.parse.chunks)
      modifies this
      ensures Tables() == After(old(Tables()), e)
      ensures Network() == GraphAfter(old(Network()), old(Tables()), e)
    {
      match e
      case Parsed(f, p) =>
        UpsertAllDeclares(symbols, nextPk, p.symbols);
        files := files[f := false];
        ClearRelationsForFile(f);
        ApplyParsedFile(f, p);
      case Unparsed(f) =>
        files := files[f := false];
      case Unreadable(f) =>
        files := files[f := false];
        TombstoneFile(f);
      case Removed(f) =>
        if f in files {
          TombstoneFile(f);
        }
      case Embed(k, model) =>
        if k in chunks && !chunks[k].deleted {
          embeddings := embeddings[EmbeddingKey(k, model) := chunks[k].raw];
        }
    }
  }

  lemma MissingAreTombstoned(chunks: Chunks, f: Path, drafts: seq<ChunkDraft>)
    ensures var soFar := ReconciledSoFar(chunks, f, drafts);
            TombstonedIn(soFar, set k | k in soFar && k.file == f && !HasTag(drafts, k.tag))
            == ReconciledChunks(chunks, f, drafts)
  {
    forall k | k in TagKeys(f, drafts)
      ensures k.file == f && HasTag(drafts, k.tag)
    {
    }
  }

  /** The check after the deletions finds the definitions that have no home left. */
  lemma HomelessAre(before: Index, f: Path, gone: set<nat>, occurrences: set<Occurrence>, files: map<Path, bool>)
    requires occurrences == Without(before.occurrences, f) && files == before.files[f := true]
    requires gone == set pk | pk in DefinedPksIn(before.occurrences, f) && !DefinedIn(occurrences, files, pk)
    ensures gone == Homeless(before, f)
  {
  }

  lemma AppliedParts(ix: Index, f: Path, p: Parse)
    ensures var (symbols, nextPk) := UpsertAll(ix.symbols, ix.nextPk, p.symbols);
            Declared(p) <= symbols.Keys
            && var occurrences := Without(ix.occurrences, f) + Found(symbols, f, p);
            Applied(ix, f, p) == Index(ix.files, Buried(symbols, Orphans(symbols, occurrences, p)), nextPk,
                                       occurrences, ReconciledChunks(ix.chunks, f, p.chunks),
                                       FreshEmbeddings(ix.embeddings, ix.chunks, f, p.chunks))
  {
    UpsertAllDeclares(ix.symbols, ix.nextPk, p.symbols);
  }
}
