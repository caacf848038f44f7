/** What chunks, their edit log and their embeddings say after any history of file events. */
module ChunkLaws {
  import opened FileIndex
  import opened SymbolLaws

  /* ---- replaying the edit log ---- */

  datatype Replayed = Nothing | Known(raw: Hash, live: bool)

  /** What the edit log alone says of its chunk; a log must begin with its creation and quote the hash it replaces. */
  function Replay(log: seq<Edit>): (r: Replayed) {
    if log == [] then Nothing
    else
      var before := Replay(log[..|log| - 1]);
      match log[|log| - 1]
      case Create(raw) => if |log| == 1 then Known(raw, true) else Nothing
      case Update(was, raw) => if before.Known? && before.raw == was then Known(raw, true) else Nothing
      case Delete(was) => if before == Known(was, true) then Known(was, false) else Nothing
  }

  function Updates(log: seq<Edit>): nat {
    if log == [] then 0
    else Updates(log[..|log| - 1]) + if log[|log| - 1].Update? then 1 else 0
  }

  predicate LogOk(c: Chunk) {
    Replay(c.log) == Known(c.raw, !c.deleted) && c.edits == Updates(c.log)
  }

  lemma ChunkStepsKeepLogs(c: Chunk, d: ChunkDraft)
    requires LogOk(c)
    ensures LogOk(Created(d)) && LogOk(Reconciled(c, d)) && LogOk(Tombstoned(c))
  {
    assert [Create(d.raw)][..0] == [];
    assert (c.log + [Update(c.raw, d.raw)])[..|c.log|] == c.log;
    assert (c.log + [Delete(c.raw)])[..|c.log|] == c.log;
  }

  lemma CreatedLogOk(d: ChunkDraft)
    ensures LogOk(Created(d))
  {
    assert [Create(d.raw)][..0] == [];
  }

  /* ---- the invariant ---- */

  predicate LiveChunk(chunks: Chunks, k: ChunkKey) {
    k in chunks && !chunks[k].deleted
  }

  predicate DraftedIn(latest: map<Path, Parse>, k: ChunkKey) {
    k.file in latest && HasTag(latest[k.file].chunks, k.tag)
  }

  predicate MatchesDraft(c: Chunk, d: ChunkDraft) {
    !c.deleted && c.raw == d.raw && c.norm == d.norm
  }

  ghost predicate ChunksAgree(chunks: Chunks, latest: map<Path, Parse>) {
    && (forall k | k in chunks :: LogOk(chunks[k]))
    && (forall k :: LiveChunk(chunks, k) <==> DraftedIn(latest, k))
    && (forall k | DraftedIn(latest, k) :: MatchesDraft(chunks[k], DraftOf(latest[k.file].chunks, k.tag)))
  }

  predicate EmbeddingsAgree(ix: Index) {
    forall e | e in ix.embeddings :: e.chunk in ix.chunks && ix.embeddings[e] == ix.chunks[e.chunk].raw
  }

  lemma TagKeysHasTag(f: Path, drafts: seq<ChunkDraft>, k: ChunkKey)
    ensures k in TagKeys(f, drafts) <==> k.file == f && HasTag(drafts, k.tag)
  {
    if k.file == f && HasTag(drafts, k.tag) {
      var d :| d in drafts && d.tag == k.tag;
      assert ChunkKey(f, d.tag) == k;
    }
  }

  lemma ReconciledAgree(chunks: Chunks, latest: map<Path, Parse>, f: Path, p: Parse)
    requires ChunksAgree(chunks, latest)
    ensures ChunksAgree(ReconciledChunks(chunks, f, p.chunks), latest[f := p])
  {
    var chunks', latest' := ReconciledChunks(chunks, f, p.chunks), latest[f := p];
    forall k
      ensures k in chunks' ==> LogOk(chunks'[k])
      ensures LiveChunk(chunks', k) <==> DraftedIn(latest', k)
      ensures DraftedIn(latest', k) ==> MatchesDraft(chunks'[k], DraftOf(latest'[k.file].chunks, k.tag))
    {
      TagKeysHasTag(f, p.chunks, k);
      assert LiveChunk(chunks, k) <==> DraftedIn(latest, k);
      if k in chunks' && k.file == f {
        if HasTag(p.chunks, k.tag) {
          CreatedLogOk(DraftOf(p.chunks, k.tag));
        }
        if k in chunks {
          ChunkStepsKeepLogs(chunks[k], ChunkDraft(k.tag, "", ""));
          if HasTag(p.chunks, k.tag) {
            ChunkStepsKeepLogs(chunks[k], DraftOf(p.chunks, k.tag));
          }
        }
      }
    }
  }

  lemma TombstonedChunksAgree(chunks: Chunks, latest: map<Path, Parse>, f: Path)
    requires ChunksAgree(chunks, latest)
    ensures ChunksAgree(TombstonedChunks(chunks, f), latest - {f})
  {
    var chunks', latest' := TombstonedChunks(chunks, f), latest - {f};
    forall k
      ensures k in chunks' ==> LogOk(chunks'[k])
      ensures LiveChunk(chunks', k) <==> DraftedIn(latest', k)
    {
      assert LiveChunk(chunks, k) <==> DraftedIn(latest, k);
      if k in chunks {
        ChunkStepsKeepLogs(chunks[k], ChunkDraft(k.tag, "", ""));
      }
    }
  }

  lemma StepKeepsEmbeddings(ix: Index, e: Event)
    requires EmbeddingsAgree(ix)
    ensures EmbeddingsAgree(After(ix, e))
  {
    var ix' := After(ix, e);
    match e
    case Parsed(f, p) =>
      forall m | m in ix'.embeddings
        ensures m.chunk in ix'.chunks && ix'.embeddings[m] == ix'.chunks[m.chunk].raw
      {
        assert !Stale(ix.chunks, f, p.chunks, m.chunk);
      }
    case _ =>
  }

  lemma {:induction false} RunChunksAgree(history: seq<Event>)
    ensures ChunksAgree(Run(history).chunks, Latest(history))
    ensures EmbeddingsAgree(Run(history))
    ensures forall f | f in Latest(history) :: f in Run(history).files
  {
    if history != [] {
      var before, e := history[..|history| - 1], history[|history| - 1];
      var ix, latest := Run(before), Latest(before);
      RunChunksAgree(before);
      StepKeepsEmbeddings(ix, e);
      match e
      case Parsed(f, p) => ReconciledAgree(ix.chunks, latest, f, p);
      case Unparsed(f) =>
      case Unreadable(f) => TombstonedChunksAgree(ix.chunks, latest, f);
      case Removed(f) =>
        if f in ix.files {
          TombstonedChunksAgree(ix.chunks, latest, f);
        } else {
          assert latest - {f} == latest;
        }
      case Embed(_, _) =>
    }
  }

  /* ---- the promises ---- */

  /**
   After any history, replaying a chunk's edit log gives its hash and whether it is live, and its edit count is the
   number of update rows.
   */
  lemma {:induction false} EditLogReplays(history: seq<Event>, k: ChunkKey)
    requires k in Run(history).chunks
    ensures var c := Run(history).chunks[k];
            && Replay(c.log) == Known(c.raw, !c.deleted)
            && c.edits == Updates(c.log)
  {
    RunChunksAgree(history);
    assert LogOk(Run(history).chunks[k]);
  }

  /** The live chunks are exactly those of the files' latest successful parses, with the parsed hashes. */
  lemma {:induction false} LiveChunksAreTheParsedOnes(history: seq<Event>, k: ChunkKey)
    ensures LiveChunk(Run(history).chunks, k) <==> DraftedIn(Latest(history), k)
    ensures DraftedIn(Latest(history), k) ==>
              MatchesDraft(Run(history).chunks[k], DraftOf(Latest(history)[k.file].chunks, k.tag))
  {
    RunChunksAgree(history);
    assert LiveChunk(Run(history).chunks, k) <==> DraftedIn(Latest(history), k);
  }

  /** A parse with one chunk per tag: the file's live chunks are just its drafts. */
  lemma {:induction false} DraftOfIsTheDraft(drafts: seq<ChunkDraft>, d: ChunkDraft)
    requires d in drafts && DistinctTags(drafts)
    ensures HasTag(drafts, d.tag) && DraftOf(drafts, d.tag) == d
  {
    var n := |drafts| - 1;
    if drafts[n].tag != d.tag {
      assert d in drafts[..n];
      DraftOfIsTheDraft(drafts[..n], d);
    } else {
      var i :| 0 <= i < |drafts| && drafts[i] == d;
      assert i == n;
    }
  }

  lemma {:induction false} ParsedChunksAreLive(history: seq<Event>, f: Path, p: Parse, d: ChunkDraft)
    requires DistinctTags(p.chunks) && d in p.chunks
    ensures var c := Run(history + [Parsed(f, p)]).chunks;
            ChunkKey(f, d.tag) in c && MatchesDraft(c[ChunkKey(f, d.tag)], d)
  {
    var k := ChunkKey(f, d.tag);
    RunNext(history, Parsed(f, p));
    DraftOfIsTheDraft(p.chunks, d);
    LiveChunksAreTheParsedOnes(history + [Parsed(f, p)], k);
  }

  /** Every embedding was computed from the content its chunk has now. */
  lemma {:induction false} EmbeddingsAreCurrent(history: seq<Event>, e: EmbeddingKey)
    requires e in Run(history).embeddings
    ensures e.chunk in Run(history).chunks
    ensures Run(history).embeddings[e] == Run(history).chunks[e.chunk].raw
  {
    RunChunksAgree(history);
  }

  /** No embedding survives a change of its chunk's content, nor its chunk's return from the dead. */
  lemma ChangeDropsEmbeddings(ix: Index, e: Event, k: ChunkKey, model: string)
    requires k in ix.chunks && k in After(ix, e).chunks
    requires var c, c' := ix.chunks[k], After(ix, e).chunks[k];
             c'.raw != c.raw || c'.norm != c.norm || (c.deleted && !c'.deleted)
    ensures EmbeddingKey(k, model) !in After(ix, e).embeddings
  {
    match e
    case Parsed(f, p) =>
      TagKeysHasTag(f, p.chunks, k);
      assert Stale(ix.chunks, f, p.chunks, k);
    case _ =>
  }

  /* ---- applying the same parse again ---- */

  lemma ReconciledTwice(chunks: Chunks, f: Path, drafts: seq<ChunkDraft>)
    ensures var once := ReconciledChunks(chunks, f, drafts); ReconciledChunks(once, f, drafts) == once
  {
    var once := ReconciledChunks(chunks, f, drafts);
    forall k
      ensures k in TagKeys(f, drafts) ==> k in once
    {
      TagKeysHasTag(f, drafts, k);
    }
  }

  function LastDraft(drafts: seq<SymbolDraft>, u: Uid): SymbolDraft
    requires exists d :: d in drafts && d.uid == u
  {
    if drafts[|drafts| - 1].uid == u then drafts[|drafts| - 1] else LastDraft(drafts[..|drafts| - 1], u)
  }

  lemma {:induction false} UpsertedRow(symbols: Symbols, nextPk: nat, drafts: seq<SymbolDraft>, u: Uid)
    requires PksOk(symbols, nextPk) && exists d :: d in drafts && d.uid == u
    ensures var (after, _) := UpsertAll(symbols, nextPk, drafts);
            var d := LastDraft(drafts, u);
            u in after && after[u] == Symbol(after[u].pk, d.canonical, d.display, false)
  {
    var front, last := drafts[..|drafts| - 1], drafts[|drafts| - 1];
    UpsertAllGrows(symbols, nextPk, drafts);
    if last.uid != u {
      var d :| d in drafts && d.uid == u;
      assert d in front;
      UpsertedRow(symbols, nextPk, front, u);
    }
  }

  lemma {:induction false} KnownTakesNoKey(symbols: Symbols, nextPk: nat, drafts: seq<SymbolDraft>)
    requires forall d | d in drafts :: d.uid in symbols
    ensures UpsertAll(symbols, nextPk, drafts).1 == nextPk
    ensures UpsertAll(symbols, nextPk, drafts).0.Keys == symbols.Keys
  {
    if drafts != [] {
      KnownTakesNoKey(symbols, nextPk, drafts[..|drafts| - 1]);
    }
  }

  /** Upserting drafts whose rows already say what they say changes nothing. */
  lemma UpsertedTwice(symbols: Symbols, nextPk: nat, drafts: seq<SymbolDraft>)
    requires PksOk(symbols, nextPk)
    requires forall u | (exists d :: d in drafts && d.uid == u) ::
               && u in symbols
               && var d := LastDraft(drafts, u); symbols[u] == Symbol(symbols[u].pk, d.canonical, d.display, false)
    ensures UpsertAll(symbols, nextPk, drafts) == (symbols, nextPk)
  {
    KnownTakesNoKey(symbols, nextPk, drafts);
    UpsertAllGrows(symbols, nextPk, drafts);
    var after := UpsertAll(symbols, nextPk, drafts).0;
    forall u | u in symbols
      ensures after[u] == symbols[u]
    {
      if exists d :: d in drafts && d.uid == u {
        UpsertedRow(symbols, nextPk, drafts, u);
      } else {
        assert u !in Uids(drafts);
      }
    }
    assert after == symbols;
  }

  lemma BuriedOnce(symbols: Symbols, occurrences: set<Occurrence>, p: Parse)
    ensures var once := Buried(symbols, Orphans(symbols, occurrences, p));
            Buried(once, Orphans(once, occurrences, p)) == once
  {
    var once := Buried(symbols, Orphans(symbols, occurrences, p));
    assert PksOf(once, Declared(p)) == PksOf(symbols, Declared(p)) by {
      forall u | u in Declared(p) && u in symbols
        ensures once[u].pk == symbols[u].pk
        ensures symbols[u].pk in PksOf(once, Declared(p))
      {
        assert once[u].pk in PksOf(once, Declared(p));
      }
    }
    forall u | u in once && !once[u].deleted
      ensures once[u].pk !in Orphans(once, occurrences, p)
    {
      assert symbols[u].pk !in Orphans(symbols, occurrences, p);
    }
    assert Orphans(once, occurrences, p) == {};
  }

  lemma DeclaredStayLive(symbols: Symbols, nextPk: nat, occurrences: set<Occurrence>, p: Parse, u: Uid)
    requires PksOk(symbols, nextPk) && u in symbols && u in Declared(p)
    ensures Buried(symbols, Orphans(symbols, occurrences, p))[u] == symbols[u]
  {
    assert symbols[u].pk in PksOf(symbols, Declared(p));
  }

  /**
   Applying the parse that was applied last changes no table: no row is added, no log entry written, no key taken
   and no embedding dropped.
   */
  lemma {:induction false} ReapplyChangesNothing(ix: Index, f: Path, p: Parse)
    requires PksOk(ix.symbols, ix.nextPk)
    ensures var once := Applied(ix, f, p); Applied(once, f, p) == once
  {
    var once := Applied(ix, f, p);
    var (symbols, nextPk) := UpsertAll(ix.symbols, ix.nextPk, p.symbols);
    UpsertAllGrows(ix.symbols, ix.nextPk, p.symbols);
    forall u | (exists d :: d in p.symbols && d.uid == u)
      ensures u in once.symbols && var d := LastDraft(p.symbols, u);
              once.symbols[u] == Symbol(once.symbols[u].pk, d.canonical, d.display, false)
    {
      UpsertedRow(ix.symbols, ix.nextPk, p.symbols, u);
      assert u in Declared(p);
      DeclaredStayLive(symbols, nextPk, once.occurrences, p, u);
    }
    UpsertedTwice(once.symbols, nextPk, p.symbols);
    ReapplyKeepsOccurrences(ix, f, p);
    BuriedOnce(symbols, once.occurrences, p);
    ReconciledTwice(ix.chunks, f, p.chunks);
    ReapplyKeepsEmbeddings(ix, f, p);
  }

  lemma ReapplyKeepsOccurrences(ix: Index, f: Path, p: Parse)
    requires PksOk(ix.symbols, ix.nextPk)
    ensures var once := Applied(ix, f, p);
            Declared(p) <= once.symbols.Keys
            && Without(once.occurrences, f) + Found(once.symbols, f, p) == once.occurrences
  {
    var once := Applied(ix, f, p);
    var (symbols, nextPk) := UpsertAll(ix.symbols, ix.nextPk, p.symbols);
    UpsertAllGrows(ix.symbols, ix.nextPk, p.symbols);
    assert Found(once.symbols, f, p) == Found(symbols, f, p);
    assert Without(once.occurrences, f) == Without(ix.occurrences, f);
  }

  lemma ReapplyKeepsEmbeddings(ix: Index, f: Path, p: Parse)
    ensures var once := Applied(ix, f, p);
            FreshEmbeddings(once.embeddings, once.chunks, f, p.chunks) == once.embeddings
  {
    var once := Applied(ix, f, p);
    forall k
      ensures !Stale(once.chunks, f, p.chunks, k)
    {
      TagKeysHasTag(f, p.chunks, k);
    }
  }
}
