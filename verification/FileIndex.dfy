/**
 The per-file part of the index (`code_index/pipeline.py`): files, symbols,
 occurrences, chunks with their edit log, and embeddings, as functions from
 tables to tables. `IndexStore` computes the same tables row by row.
 */
module FileIndex {
  import opened Options

  type Path = string
  type Uid = string
  type Hash = string

  /* ---- what a parser returns ---- */

  datatype SymbolDraft = SymbolDraft(uid: Uid, canonical: string, display: string)

  datatype OccurrenceDraft = OccurrenceDraft(uid: Uid, definition: bool)

  /** `tag` is what distinguishes a chunk within its file. */
  datatype ChunkDraft = ChunkDraft(tag: string, raw: Hash, norm: Hash)

  /** A relation between two symbols of the file itself. */
  datatype RelationDraft = RelationDraft(src: Uid, dst: Uid, kind: string)

  datatype Parse = Parse(
    symbols: seq<SymbolDraft>,
    occurrences: seq<OccurrenceDraft>,
    relations: seq<RelationDraft>,
    chunks: seq<ChunkDraft>)

  /* ---- tables ---- */

  datatype Symbol = Symbol(pk: nat, canonical: string, display: string, deleted: bool)

  datatype Occurrence = Occurrence(pk: nat, file: Path, definition: bool)

  datatype ChunkKey = ChunkKey(file: Path, tag: string)

  datatype Edit = Create(now: Hash) | Update(was: Hash, now: Hash) | Delete(was: Hash)

  /** A chunk row with the rows of `chunk_edits` that name it, oldest first. */
  datatype Chunk = Chunk(raw: Hash, norm: Hash, edits: nat, deleted: bool, log: seq<Edit>)

  datatype EmbeddingKey = EmbeddingKey(chunk: ChunkKey, model: string)

  type Symbols = map<Uid, Symbol>
  type Chunks = map<ChunkKey, Chunk>
  type Embeddings = map<EmbeddingKey, Hash>

  /** `files` says of every file row whether it is deleted; `nextPk` is the next free symbol key. */
  datatype Index = Index(
    files: map<Path, bool>,
    symbols: Symbols,
    nextPk: nat,
    occurrences: set<Occurrence>,
    chunks: Chunks,
    embeddings: Embeddings)

  const EMPTY := Index(map[], map[], 1, {}, map[], map[])

  /* ---- symbols ---- */

  function Upserted(symbols: Symbols, nextPk: nat, d: SymbolDraft): Symbols {
    symbols[d.uid := Symbol(if d.uid in symbols then symbols[d.uid].pk else nextPk, d.canonical, d.display, false)]
  }

  function NextPk(symbols: Symbols, nextPk: nat, d: SymbolDraft): nat {
    if d.uid in symbols then nextPk else nextPk + 1
  }

  function UpsertAll(symbols: Symbols, nextPk: nat, drafts: seq<SymbolDraft>): (Symbols, nat) {
    if drafts == [] then (symbols, nextPk)
    else
      var (before, pk) := UpsertAll(symbols, nextPk, drafts[..|drafts| - 1]);
      var d := drafts[|drafts| - 1];
      (Upserted(before, pk, d), NextPk(before, pk, d))
  }

  function Uids(drafts: seq<SymbolDraft>): set<Uid> {
    set d | d in drafts :: d.uid
  }

  /** The symbols that a parse declares. */
  function Declared(p: Parse): set<Uid> {
    Uids(p.symbols)
  }

  /** The occurrences a parse adds: those of undeclared symbols are skipped. */
  function Found(symbols: Symbols, f: Path, p: Parse): set<Occurrence>
    requires Declared(p) <= symbols.Keys
  {
    set o | o in p.occurrences && o.uid in Declared(p) :: Occurrence(symbols[o.uid].pk, f, o.definition)
  }

  predicate Defines(occurrences: set<Occurrence>, f: Path, pk: nat) {
    Occurrence(pk, f, true) in occurrences
  }

  function DefinedPks(occurrences: set<Occurrence>): set<nat> {
    set o | o in occurrences && o.definition :: o.pk
  }

  function DefinedPksIn(occurrences: set<Occurrence>, f: Path): set<nat> {
    set o | o in occurrences && o.definition && o.file == f :: o.pk
  }

  function Without(occurrences: set<Occurrence>, f: Path): set<Occurrence> {
    set o | o in occurrences && o.file != f
  }

  /** The symbols with the rows whose key is in `gone` marked deleted. */
  function Buried(symbols: Symbols, gone: set<nat>): Symbols {
    map u | u in symbols :: symbols[u].(deleted := symbols[u].deleted || symbols[u].pk in gone)
  }

  function PksOf(symbols: Symbols, uids: set<Uid>): set<nat> {
    set u | u in uids && u in symbols :: symbols[u].pk
  }

  /** Live symbols without any definition, except those the parse declares. */
  function Orphans(symbols: Symbols, occurrences: set<Occurrence>, p: Parse): set<nat> {
    (set u | u in symbols && !symbols[u].deleted :: symbols[u].pk)
    - DefinedPks(occurrences) - PksOf(symbols, Declared(p))
  }

  /* ---- chunks ---- */

  predicate HasTag(drafts: seq<ChunkDraft>, tag: string) {
    exists d :: d in drafts && d.tag == tag
  }

  /** The draft with the tag; a parse has one per tag. */
  function DraftOf(drafts: seq<ChunkDraft>, tag: string): (d: ChunkDraft)
    requires HasTag(drafts, tag)
    ensures d in drafts && d.tag == tag
  {
    if drafts[|drafts| - 1].tag == tag then drafts[|drafts| - 1] else DraftOf(drafts[..|drafts| - 1], tag)
  }

  predicate Differs(c: Chunk, d: ChunkDraft) {
    c.raw != d.raw || c.norm != d.norm || c.deleted
  }

  function Created(d: ChunkDraft): Chunk {
    Chunk(d.raw, d.norm, 0, false, [Create(d.raw)])
  }

  function Reconciled(c: Chunk, d: ChunkDraft): Chunk {
    if Differs(c, d) then Chunk(d.raw, d.norm, c.edits + 1, false, c.log + [Update(c.raw, d.raw)]) else c
  }

  function Tombstoned(c: Chunk): Chunk {
    if c.deleted then c else c.(deleted := true, log := c.log + [Delete(c.raw)])
  }

  function ChunkAfter(chunks: Chunks, k: ChunkKey, d: ChunkDraft): Chunk {
    if k in chunks then Reconciled(chunks[k], d) else Created(d)
  }

  function TagKeys(f: Path, drafts: seq<ChunkDraft>): set<ChunkKey> {
    set d | d in drafts :: ChunkKey(f, d.tag)
  }

  /** Every chunk of the file is reconciled with its draft, or tombstoned when it has none. */
  function ReconciledChunks(chunks: Chunks, f: Path, drafts: seq<ChunkDraft>): Chunks {
    map k | k in chunks.Keys + TagKeys(f, drafts) ::
      if k.file != f then chunks[k]
      else if HasTag(drafts, k.tag) then ChunkAfter(chunks, k, DraftOf(drafts, k.tag))
      else Tombstoned(chunks[k])
  }

  function TombstonedChunks(chunks: Chunks, f: Path): Chunks {
    map k | k in chunks :: if k.file == f then Tombstoned(chunks[k]) else chunks[k]
  }

  /** The chunks whose content the parse changes; their embeddings go. */
  predicate Stale(chunks: Chunks, f: Path, drafts: seq<ChunkDraft>, k: ChunkKey) {
    k in chunks && k.file == f && HasTag(drafts, k.tag) && Differs(chunks[k], DraftOf(drafts, k.tag))
  }

  function FreshEmbeddings(embeddings: Embeddings, chunks: Chunks, f: Path, drafts: seq<ChunkDraft>): Embeddings {
    map e | e in embeddings && !Stale(chunks, f, drafts, e.chunk) :: embeddings[e]
  }

  /* ---- the operations ---- */

  /** `_ensure_file_row`: the row exists and is not deleted. */
  function Recorded(ix: Index, f: Path): Index {
    ix.(files := ix.files[f := false])
  }

  /** `_apply_parsed_file`, on a file that has a row. */
  function Applied(ix: Index, f: Path, p: Parse): Index {
    var (symbols, nextPk) := UpsertAll(ix.symbols, ix.nextPk, p.symbols);
    UpsertAllDeclares(ix.symbols, ix.nextPk, p.symbols);
    var occurrences := Without(ix.occurrences, f) + Found(symbols, f, p);
    Index(
      ix.files,
      Buried(symbols, Orphans(symbols, occurrences, p)),
      nextPk,
      occurrences,
      ReconciledChunks(ix.chunks, f, p.chunks),
      FreshEmbeddings(ix.embeddings, ix.chunks, f, p.chunks))
  }

  lemma UidsNext(drafts: seq<SymbolDraft>)
    requires drafts != []
    ensures Uids(drafts) == Uids(drafts[..|drafts| - 1]) + {drafts[|drafts| - 1].uid}
  {
    assert drafts == drafts[..|drafts| - 1] + [drafts[|drafts| - 1]];
  }

  lemma {:induction false} UpsertAllDeclares(symbols: Symbols, nextPk: nat, drafts: seq<SymbolDraft>)
    ensures UpsertAll(symbols, nextPk, drafts).0.Keys == symbols.Keys + Uids(drafts)
  {
    if drafts != [] {
      UpsertAllDeclares(symbols, nextPk, drafts[..|drafts| - 1]);
      UidsNext(drafts);
    }
  }

  /** The definitions of a deleted file that no other undeleted file has. */
  function Homeless(ix: Index, f: Path): set<nat> {
    set pk | pk in DefinedPksIn(ix.occurrences, f)
             && !(exists o :: o in ix.occurrences && o.definition && o.pk == pk && o.file != f
                              && o.file in ix.files && !ix.files[o.file])
  }

  /** `_tombstone_file`, on a file that has a row. */
  function FileTombstoned(ix: Index, f: Path): Index {
    Index(
      ix.files[f := true],
      Buried(ix.symbols, Homeless(ix, f)),
      ix.nextPk,
      Without(ix.occurrences, f),
      TombstonedChunks(ix.chunks, f),
      ix.embeddings)
  }

  /** One chunk's row in `populate`: only live chunks are embedded, with their current hash. */
  function Embedded(ix: Index, k: ChunkKey, model: string): Index {
    if k in ix.chunks && !ix.chunks[k].deleted
    then ix.(embeddings := ix.embeddings[EmbeddingKey(k, model) := ix.chunks[k].raw])
    else ix
  }

  /* ---- histories ---- */

  /** What one transaction of a reindex or an embedding pass does. */
  datatype Event =
    | Parsed(file: Path, parse: Parse)
    | Unparsed(file: Path)
    | Unreadable(file: Path)
    | Removed(file: Path)
    | Embed(chunk: ChunkKey, model: string)

  /**
   A parse with status ok or empty is applied; one that failed or was skipped only updates the file row; a read
   error or a crashed parser tombstones the file; so does its removal, if it has a row.
   */
  function After(ix: Index, e: Event): Index {
    match e
    case Parsed(f, p) => Applied(Recorded(ix, f), f, p)
    case Unparsed(f) => Recorded(ix, f)
    case Unreadable(f) => FileTombstoned(Recorded(ix, f), f)
    case Removed(f) => if f in ix.files then FileTombstoned(ix, f) else ix
    case Embed(k, model) => Embedded(ix, k, model)
  }

  function Run(history: seq<Event>): Index {
    if history == [] then EMPTY else After(Run(history[..|history| - 1]), history[|history| - 1])
  }

  /** The latest successful parse of every file that was not tombstoned since. */
  function Latest(history: seq<Event>): map<Path, Parse> {
    if history == [] then map[]
    else
      var before := Latest(history[..|history| - 1]);
      match history[|history| - 1]
      case Parsed(f, p) => before[f := p]
      case Unreadable(f) => before - {f}
      case Removed(f) => before - {f}
      case _ => before
  }

  predicate DistinctTags(drafts: seq<ChunkDraft>) {
    forall i, j | 0 <= i < j < |drafts| :: drafts[i].tag != drafts[j].tag
  }

  /** What a parser owes: a definition for every symbol it declares, and one chunk per tag. */
  predicate WellFormedParse(p: Parse) {
    (forall d | d in p.symbols :: OccurrenceDraft(d.uid, true) in p.occurrences) && DistinctTags(p.chunks)
  }

  predicate WellFormed(history: seq<Event>) {
    forall e | e in history && e.Parsed? :: WellFormedParse(e.parse)
  }
}
