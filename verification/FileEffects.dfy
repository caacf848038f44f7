/**
 What the file tables hold after any history of file events, column by column: which files are deleted, what symbols are
 called, which occurrences and which embeddings there are.
 */
module FileEffects {
  import opened FileIndex
  import opened SymbolLaws
  import opened ChunkLaws

  /* ---- files ---- */

  /** The event is about the file row. */
  predicate About(e: Event, f: Path) {
    !e.Embed? && e.file == f
  }

  predicate Gone(e: Event) {
    e.Unreadable? || e.Removed?
  }

  /** A file has a row once it was met, and is deleted exactly when the last event about it was its removal or a read error. */
  lemma {:induction false} FilesAre(history: seq<Event>, f: Path)
    ensures f in Run(history).files <==> exists e :: e in history && About(e, f) && !e.Removed?
    ensures f in Run(history).files && Run(history).files[f]
       <==> exists i :: && 0 <= i < |history| && About(history[i], f) && Gone(history[i])
                        && (forall j | i < j < |history| :: !About(history[j], f))
                        && exists e :: e in history && About(e, f) && !e.Removed?
  {
    if history != [] {
      var n := |history| - 1;
      var before, e := history[..n], history[n];
      FilesAre(before, f);
      assert history == before + [e];
      FileNext(Run(before), e, f);
      if About(e, f) {
        assert About(history[n], f);
      } else {
        if i :| && 0 <= i < |before| && About(before[i], f) && Gone(before[i])
                && (forall j | i < j < |before| :: !About(before[j], f)) {
          assert history[i] == before[i];
          assert forall j | i < j < |history| :: !About(history[j], f);
        }
        if i :| && 0 <= i < |history| && About(history[i], f) && Gone(history[i])
                && (forall j | i < j < |history| :: !About(history[j], f)) {
          assert i < n && before[i] == history[i];
        }
      }
    }
  }

  lemma FileNext(ix: Index, e: Event, f: Path)
    ensures var b := After(ix, e);
            && (f in b.files <==> f in ix.files || (About(e, f) && !e.Removed?))
            && (f in b.files ==> b.files[f] == if About(e, f) then Gone(e) else ix.files[f])
  {
  }

  /* ---- names of symbols ---- */

  /** What the last parse that declares the symbol calls it; of several drafts in one parse, the last. */
  function LastCalled(history: seq<Event>, u: Uid): (d: SymbolDraft)
    requires exists e :: e in history && e.Parsed? && u in Declared(e.parse)
  {
    var n := |history| - 1;
    if history[n].Parsed? && u in Declared(history[n].parse) then LastDraft(history[n].parse.symbols, u)
    else LastCalled(history[..n], u)
  }

  /** A symbol has a row once it was declared, and the row has the names it was last declared with. */
  lemma {:induction false} SymbolsAre(history: seq<Event>, u: Uid)
    ensures u in Run(history).symbols <==> exists e :: e in history && e.Parsed? && u in Declared(e.parse)
    ensures u in Run(history).symbols ==>
              var d, s := LastCalled(history, u), Run(history).symbols[u]; s.canonical == d.canonical && s.display == d.display
  {
    if history != [] {
      var n := |history| - 1;
      var before, e := history[..n], history[n];
      SymbolsAre(before, u);
      RunKeepsPks(before);
      assert history == before + [e];
      if e.Parsed? && u in Declared(e.parse) {
        DeclaredRow(Run(before), e.file, e.parse, u);
        assert e in history;
      } else {
        OtherRow(Run(before), e, u);
      }
    }
  }

  lemma DeclaredRow(ix: Index, f: Path, p: Parse, u: Uid)
    requires PksOk(ix.symbols, ix.nextPk) && u in Declared(p)
    ensures var after, d := After(ix, Parsed(f, p)).symbols, LastDraft(p.symbols, u);
            u in after && after[u].canonical == d.canonical && after[u].display == d.display
  {
    UpsertedRow(ix.symbols, ix.nextPk, p.symbols, u);
  }

  lemma OtherRow(ix: Index, e: Event, u: Uid)
    requires PksOk(ix.symbols, ix.nextPk) && !(e.Parsed? && u in Declared(e.parse))
    ensures var after := After(ix, e).symbols;
            && (u in after <==> u in ix.symbols)
            && (u in after ==> after[u].canonical == ix.symbols[u].canonical && after[u].display == ix.symbols[u].display)
  {
    if e.Parsed? {
      UpsertAllGrows(ix.symbols, ix.nextPk, e.parse.symbols);
      UpsertAllDeclares(ix.symbols, ix.nextPk, e.parse.symbols);
    }
  }

  /* ---- occurrences ---- */

  /** The latest parse of the file declares the symbol, and has an occurrence of it, as a definition or not. */
  predicate OccursIn(latest: map<Path, Parse>, f: Path, u: Uid, definition: bool) {
    f in latest && u in Declared(latest[f]) && OccurrenceDraft(u, definition) in latest[f].occurrences
  }

  /** The occurrences are exactly those of the latest parses, in files that were not deleted since, definitions or not. */
  lemma {:induction false} OccurrencesAre(history: seq<Event>, f: Path, u: Uid, definition: bool)
    requires u in Run(history).symbols
    ensures Occurrence(Run(history).symbols[u].pk, f, definition) in Run(history).occurrences
       <==> OccursIn(Latest(history), f, u, definition)
  {
    var before, e := history[..|history| - 1], history[|history| - 1];
    RunKeepsPks(before);
    RunChunksAgree(before);
    StepKeepsKeys(Run(before), e);
    if u in Run(before).symbols {
      OccurrencesAre(before, f, u, definition);
    } else {
      NewSymbolIsParsed(Run(before), e, u);
      NewSymbolOccursNowhere(before, e, f, u, definition);
    }
    OccurrencesNext(Run(before), e, f, u, definition);
  }

  lemma NewSymbolIsParsed(ix: Index, e: Event, u: Uid)
    requires u in After(ix, e).symbols && u !in ix.symbols
    ensures e.Parsed?
  {
  }

  lemma OccurrencesNext(ix: Index, e: Event, f: Path, u: Uid, definition: bool)
    requires PksOk(ix.symbols, ix.nextPk) && u in After(ix, e).symbols
    ensures var b := After(ix, e); var o := Occurrence(b.symbols[u].pk, f, definition);
            o in b.occurrences
            <==> if e.Parsed? && f == e.file
                 then u in Declared(e.parse) && OccurrenceDraft(u, definition) in e.parse.occurrences
                 else o in ix.occurrences && !((e.Unreadable? || (e.Removed? && f in ix.files)) && f == e.file)
  {
    if e.Parsed? {
      ParsedOccurrences(ix, e.file, e.parse, f, u, definition);
    }
  }

  lemma NewSymbolOccursNowhere(before: seq<Event>, e: Event, f: Path, u: Uid, definition: bool)
    requires e.Parsed? && u !in Run(before).symbols && u in After(Run(before), e).symbols
    ensures Occurrence(After(Run(before), e).symbols[u].pk, f, definition) !in Run(before).occurrences
    ensures !OccursIn(Latest(before), f, u, definition)
  {
    var ix := Run(before);
    RunKeepsPks(before);
    RunAgrees(before);
    UpsertAllGrows(ix.symbols, ix.nextPk, e.parse.symbols);
    NeverParsed(before, f, u);
  }

  /** What no parse has declared, no latest parse declares. */
  lemma {:induction false} NeverParsed(history: seq<Event>, f: Path, u: Uid)
    requires u !in Run(history).symbols
    ensures !(f in Latest(history) && u in Declared(Latest(history)[f]))
  {
    SymbolsAre(history, u);
    LatestIsAParse(history, f);
  }

  lemma {:induction false} LatestIsAParse(history: seq<Event>, f: Path)
    ensures f in Latest(history) ==> Parsed(f, Latest(history)[f]) in history
  {
    if history != [] {
      var before, e := history[..|history| - 1], history[|history| - 1];
      LatestIsAParse(before, f);
      assert history == before + [e];
    }
  }

  lemma ParsedOccurrences(ix: Index, f: Path, p: Parse, g: Path, u: Uid, definition: bool)
    requires PksOk(ix.symbols, ix.nextPk) && u in After(ix, Parsed(f, p)).symbols
    ensures var b := After(ix, Parsed(f, p)); var o := Occurrence(b.symbols[u].pk, g, definition);
            o in b.occurrences
            <==> if g == f then u in Declared(p) && OccurrenceDraft(u, definition) in p.occurrences else o in ix.occurrences
  {
    UpsertAllGrows(ix.symbols, ix.nextPk, p.symbols);
    UpsertAllDeclares(ix.symbols, ix.nextPk, p.symbols);
    var symbols := UpsertAll(ix.symbols, ix.nextPk, p.symbols).0;
    assert After(ix, Parsed(f, p)).symbols[u].pk == symbols[u].pk;
    if u in Declared(p) && OccurrenceDraft(u, definition) in p.occurrences {
      var d := OccurrenceDraft(u, definition);
      assert d in p.occurrences && d.uid in Declared(p);
      assert Occurrence(symbols[u].pk, f, definition) in Found(symbols, f, p);
    }
  }

  /* ---- embeddings ---- */

  /** The chunk got other content, or came back. */
  predicate Changed(before: Chunks, after: Chunks, k: ChunkKey) {
    k in before && k in after
    && (after[k].raw != before[k].raw || after[k].norm != before[k].norm || (before[k].deleted && !after[k].deleted))
  }

  /** An embedding is there after the event: the event computes it, or it was there and its chunk does not change. */
  lemma EmbeddingNext(ix: Index, e: Event, k: ChunkKey, model: string)
    requires EmbeddingKey(k, model) in ix.embeddings ==> k in ix.chunks
    ensures EmbeddingKey(k, model) in After(ix, e).embeddings
       <==> || (e == Embed(k, model) && k in ix.chunks && !ix.chunks[k].deleted)
            || (EmbeddingKey(k, model) in ix.embeddings && !Changed(ix.chunks, After(ix, e).chunks, k))
  {
    if e.Parsed? && k in ix.chunks {
      TagKeysHasTag(e.file, e.parse.chunks, k);
      assert Stale(ix.chunks, e.file, e.parse.chunks, k) <==> Changed(ix.chunks, After(ix, e).chunks, k);
    }
  }

  /** The `j`-th event changed the chunk. */
  predicate ChangedBy(history: seq<Event>, k: ChunkKey, j: nat) {
    j < |history| && Changed(Run(history[..j]).chunks, Run(history[..j + 1]).chunks, k)
  }

  /** The `i`-th event computed the embedding of the chunk, then live, which has not changed since. */
  ghost predicate KeptSince(history: seq<Event>, k: ChunkKey, model: string, i: nat) {
    i < |history| && history[i] == Embed(k, model) && LiveChunk(Run(history[..i]).chunks, k) && !ChangedSince(history, k, i)
  }

  ghost predicate ChangedSince(history: seq<Event>, k: ChunkKey, i: nat) {
    exists j: nat :: i < j && ChangedBy(history, k, j)
  }

  ghost predicate Kept(history: seq<Event>, k: ChunkKey, model: string) {
    exists i: nat :: KeptSince(history, k, model, i)
  }

  lemma PrefixOfNext(before: seq<Event>, e: Event, j: nat)
    requires j <= |before|
    ensures (before + [e])[..j] == before[..j]
  {
  }

  lemma ChangedByNext(before: seq<Event>, e: Event, k: ChunkKey, j: nat)
    ensures ChangedBy(before + [e], k, j)
       <==> ChangedBy(before, k, j) || (j == |before| && Changed(Run(before).chunks, After(Run(before), e).chunks, k))
  {
    RunNext(before, e);
    if j < |before| {
      PrefixOfNext(before, e, j);
      PrefixOfNext(before, e, j + 1);
    } else if j == |before| {
      PrefixOfNext(before, e, j);
      assert (before + [e])[..j + 1] == before + [e] && before[..j] == before;
    }
  }

  lemma ChangedSinceNext(before: seq<Event>, e: Event, k: ChunkKey, i: nat)
    requires i < |before|
    ensures ChangedSince(before + [e], k, i)
       <==> ChangedSince(before, k, i) || Changed(Run(before).chunks, After(Run(before), e).chunks, k)
  {
    ChangedByNext(before, e, k, |before|);
    if ChangedSince(before + [e], k, i) {
      var j: nat :| i < j && ChangedBy(before + [e], k, j);
      ChangedByNext(before, e, k, j);
    }
    if ChangedSince(before, k, i) {
      var j: nat :| i < j && ChangedBy(before, k, j);
      ChangedByNext(before, e, k, j);
    }
  }

  lemma KeptSinceNext(before: seq<Event>, e: Event, k: ChunkKey, model: string, i: nat)
    requires i < |before|
    ensures KeptSince(before + [e], k, model, i)
       <==> KeptSince(before, k, model, i) && !Changed(Run(before).chunks, After(Run(before), e).chunks, k)
  {
    PrefixOfNext(before, e, i);
    ChangedSinceNext(before, e, k, i);
  }

  lemma KeptSinceNow(before: seq<Event>, e: Event, k: ChunkKey, model: string)
    ensures KeptSince(before + [e], k, model, |before|) <==> e == Embed(k, model) && LiveChunk(Run(before).chunks, k)
  {
    PrefixOfNext(before, e, |before|);
    assert before[..|before|] == before;
  }

  /**
   An embedding is stored exactly when it was computed for a live chunk that has kept its content ever since and was not
   revived in between: no parse drops it without need, and none leaves it behind.
   */
  lemma {:induction false} EmbeddingsAre(history: seq<Event>, k: ChunkKey, model: string)
    ensures EmbeddingKey(k, model) in Run(history).embeddings <==> Kept(history, k, model)
  {
    if history != [] {
      var before, e := history[..|history| - 1], history[|history| - 1];
      EmbeddingsAre(before, k, model);
      RunChunksAgree(before);
      EmbeddingNext(Run(before), e, k, model);
      EmbeddingsNext(before, e, k, model);
      assert history == before + [e];
      RunNext(before, e);
    }
  }

  lemma EmbeddingsNext(before: seq<Event>, e: Event, k: ChunkKey, model: string)
    ensures Kept(before + [e], k, model)
       <==> || (e == Embed(k, model) && LiveChunk(Run(before).chunks, k))
            || (Kept(before, k, model) && !Changed(Run(before).chunks, After(Run(before), e).chunks, k))
  {
    KeptSinceNow(before, e, k, model);
    if Kept(before + [e], k, model) {
      var i: nat :| KeptSince(before + [e], k, model, i);
      if i < |before| {
        KeptSinceNext(before, e, k, model, i);
      }
    }
    if Kept(before, k, model) {
      var i: nat :| KeptSince(before, k, model, i);
      KeptSinceNext(before, e, k, model, i);
    }
  }
}
