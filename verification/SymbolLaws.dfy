/** What the symbol table says after any history of file events. */
module SymbolLaws {
  import opened FileIndex

  predicate DeclaredIn(latest: map<Path, Parse>, f: Path, u: Uid) {
    f in latest && u in Declared(latest[f])
  }

  /** The parse declares the symbol, and has the occurrence that defines it. */
  predicate DefinedBy(p: Parse, u: Uid) {
    u in Declared(p) && OccurrenceDraft(u, true) in p.occurrences
  }

  predicate DefinedIn(latest: map<Path, Parse>, f: Path, u: Uid) {
    f in latest && DefinedBy(latest[f], u)
  }

  ghost predicate DefinedSomewhere(latest: map<Path, Parse>, u: Uid) {
    exists f :: DefinedIn(latest, f, u)
  }

  /** The symbols that live without a definition: those that the last parse applied declares, and no file defined then. */
  ghost function Spared(history: seq<Event>): set<Uid> {
    if history == [] then {}
    else
      match history[|history| - 1]
      case Parsed(_, p) => set u | u in Declared(p) && !DefinedSomewhere(Latest(history), u)
      case _ => Spared(history[..|history| - 1])
  }

  /* ---- upserting ---- */

  predicate PksOk(symbols: Symbols, nextPk: nat) {
    && (forall u | u in symbols :: symbols[u].pk < nextPk)
    && (forall u, v | u in symbols && v in symbols && u != v :: symbols[u].pk != symbols[v].pk)
  }

  /**
   Old symbols keep their key, new ones get keys never used before; those in `uids` are live, others untouched.
   */
  predicate Grown(before: Symbols, nextPk: nat, after: Symbols, nextPk': nat, uids: set<Uid>) {
    && PksOk(after, nextPk') && nextPk <= nextPk'
    && after.Keys == before.Keys + uids
    && (forall u | u in before :: after[u].pk == before[u].pk)
    && (forall u | u in after && u !in before :: after[u].pk >= nextPk)
    && (forall u | u in uids :: !after[u].deleted)
    && (forall u | u in before && u !in uids :: after[u] == before[u])
  }

  lemma UpsertedGrows(before: Symbols, nextPk: nat, mid: Symbols, midPk: nat, uids: set<Uid>, d: SymbolDraft)
    requires Grown(before, nextPk, mid, midPk, uids)
    ensures Grown(before, nextPk, Upserted(mid, midPk, d), NextPk(mid, midPk, d), uids + {d.uid})
  {
  }

  lemma {:induction false} UpsertAllGrows(symbols: Symbols, nextPk: nat, drafts: seq<SymbolDraft>)
    requires PksOk(symbols, nextPk)
    ensures var (after, nextPk') := UpsertAll(symbols, nextPk, drafts);
            Grown(symbols, nextPk, after, nextPk', Uids(drafts))
  {
    if drafts != [] {
      var front, last := drafts[..|drafts| - 1], drafts[|drafts| - 1];
      UpsertAllGrows(symbols, nextPk, front);
      var (mid, midPk) := UpsertAll(symbols, nextPk, front);
      UpsertedGrows(symbols, nextPk, mid, midPk, Uids(front), last);
      UidsNext(drafts);
    }
  }

  /* ---- the invariant ---- */

  /** The definitions are exactly that the latest parse of the file defines the symbol. */
  ghost predicate DefinitionsAgree(symbols: Symbols, occurrences: set<Occurrence>, latest: map<Path, Parse>) {
    forall u, f | u in symbols :: Defines(occurrences, f, symbols[u].pk) <==> DefinedIn(latest, f, u)
  }

  /** The live symbols are those with a definition, and the spared ones. */
  ghost predicate LivenessAgrees(symbols: Symbols, latest: map<Path, Parse>, spared: set<Uid>) {
    forall u | u in symbols :: !symbols[u].deleted <==> DefinedSomewhere(latest, u) || u in spared
  }

  ghost predicate Agrees(ix: Index, latest: map<Path, Parse>, spared: set<Uid>) {
    && PksOk(ix.symbols, ix.nextPk)
    && (forall o | o in ix.occurrences :: o.pk < ix.nextPk)
    && (forall f | f in latest :: f in ix.files && !ix.files[f])
    && (forall f, u | DefinedIn(latest, f, u) :: u in ix.symbols)
    && spared <= ix.symbols.Keys
    && (forall u | u in spared :: !DefinedSomewhere(latest, u))
    && DefinitionsAgree(ix.symbols, ix.occurrences, latest)
    && LivenessAgrees(ix.symbols, latest, spared)
  }

  lemma FoundAgrees(symbols: Symbols, nextPk: nat, f: Path, p: Parse, u: Uid)
    requires PksOk(symbols, nextPk) && Declared(p) <= symbols.Keys && u in symbols
    ensures Occurrence(symbols[u].pk, f, true) in Found(symbols, f, p) <==> DefinedBy(p, u)
  {
    if DefinedBy(p, u) {
      var o := OccurrenceDraft(u, true);
      assert o in p.occurrences && o.uid in Declared(p);
    }
  }

  lemma DefinitionsAfter(ix: Index, latest: map<Path, Parse>, spared: set<Uid>, f: Path, p: Parse,
                         symbols: Symbols, nextPk: nat)
    requires Agrees(ix, latest, spared)
    requires Grown(ix.symbols, ix.nextPk, symbols, nextPk, Declared(p))
    ensures DefinitionsAgree(symbols, Without(ix.occurrences, f) + Found(symbols, f, p), latest[f := p])
    ensures forall o | o in Without(ix.occurrences, f) + Found(symbols, f, p) :: o.pk < nextPk
  {
    var occurrences := Without(ix.occurrences, f) + Found(symbols, f, p);
    forall u, g | u in symbols
      ensures Defines(occurrences, g, symbols[u].pk) <==> DefinedIn(latest[f := p], g, u)
    {
      if g == f {
        FoundAgrees(symbols, nextPk, f, p, u);
      } else {
        assert Defines(occurrences, g, symbols[u].pk) <==> Defines(ix.occurrences, g, symbols[u].pk);
        assert DefinedIn(latest[f := p], g, u) <==> DefinedIn(latest, g, u);
        assert u in ix.symbols ==> symbols[u].pk == ix.symbols[u].pk;
      }
    }
  }

  /** Having a definition is being defined by some file's latest parse. */
  lemma DefinedIff(symbols: Symbols, occurrences: set<Occurrence>, latest: map<Path, Parse>, u: Uid)
    requires DefinitionsAgree(symbols, occurrences, latest) && u in symbols
    ensures symbols[u].pk in DefinedPks(occurrences) <==> DefinedSomewhere(latest, u)
  {
    var pk := symbols[u].pk;
    if pk in DefinedPks(occurrences) {
      var o :| o in occurrences && o.definition && o.pk == pk;
      assert Defines(occurrences, o.file, pk);
    }
    if DefinedSomewhere(latest, u) {
      var f :| DefinedIn(latest, f, u);
      assert Occurrence(pk, f, true) in occurrences;
    }
  }

  lemma LivenessAfter(ix: Index, latest: map<Path, Parse>, spared: set<Uid>, f: Path, p: Parse,
                      symbols: Symbols, nextPk: nat, u: Uid)
    requires Agrees(ix, latest, spared) && u in symbols
    requires Grown(ix.symbols, ix.nextPk, symbols, nextPk, Declared(p))
    ensures var occurrences := Without(ix.occurrences, f) + Found(symbols, f, p);
            !Buried(symbols, Orphans(symbols, occurrences, p))[u].deleted
            <==> DefinedSomewhere(latest[f := p], u) || u in Declared(p)
  {
    var occurrences := Without(ix.occurrences, f) + Found(symbols, f, p);
    DefinitionsAfter(ix, latest, spared, f, p, symbols, nextPk);
    DefinedIff(symbols, occurrences, latest[f := p], u);
    if u in Declared(p) {
      assert symbols[u].pk in PksOf(symbols, Declared(p));
    } else {
      assert symbols[u].pk !in PksOf(symbols, Declared(p));
      if DefinedSomewhere(latest[f := p], u) {
        var g :| DefinedIn(latest[f := p], g, u);
        assert DefinedIn(latest, g, u);
      }
    }
  }

  lemma BuriedKeeps(symbols: Symbols, nextPk: nat, gone: set<nat>, occurrences: set<Occurrence>,
                    latest: map<Path, Parse>)
    requires PksOk(symbols, nextPk) && DefinitionsAgree(symbols, occurrences, latest)
    ensures PksOk(Buried(symbols, gone), nextPk) && DefinitionsAgree(Buried(symbols, gone), occurrences, latest)
  {
    forall u, f | u in Buried(symbols, gone)
      ensures Defines(occurrences, f, Buried(symbols, gone)[u].pk) <==> DefinedIn(latest, f, u)
    {
      assert Defines(occurrences, f, symbols[u].pk) <==> DefinedIn(latest, f, u);
    }
  }

  ghost function SparedBy(latest: map<Path, Parse>, p: Parse): set<Uid> {
    set u | u in Declared(p) && !DefinedSomewhere(latest, u)
  }

  /** Applying a parse: only what it declares itself lives on without a definition. */
  lemma AppliedAgrees(ix: Index, latest: map<Path, Parse>, spared: set<Uid>, f: Path, p: Parse)
    requires Agrees(ix, latest, spared) && f in ix.files && !ix.files[f]
    ensures Agrees(Applied(ix, f, p), latest[f := p], SparedBy(latest[f := p], p))
  {
    var (symbols, nextPk) := UpsertAll(ix.symbols, ix.nextPk, p.symbols);
    UpsertAllGrows(ix.symbols, ix.nextPk, p.symbols);
    AppliedAgreesIf(ix, latest, spared, f, p, symbols, nextPk, Applied(ix, f, p));
  }

  lemma AppliedAgreesIf(ix: Index, latest: map<Path, Parse>, spared: set<Uid>, f: Path, p: Parse,
                        symbols: Symbols, nextPk: nat, ix': Index)
    requires Agrees(ix, latest, spared) && f in ix.files && !ix.files[f]
    requires Grown(ix.symbols, ix.nextPk, symbols, nextPk, Declared(p))
    requires ix'.files == ix.files && ix'.nextPk == nextPk
    requires ix'.occurrences == Without(ix.occurrences, f) + Found(symbols, f, p)
    requires ix'.symbols == Buried(symbols, Orphans(symbols, ix'.occurrences, p))
    ensures Agrees(ix', latest[f := p], SparedBy(latest[f := p], p))
  {
    var latest' := latest[f := p];
    DefinitionsAfter(ix, latest, spared, f, p, symbols, nextPk);
    BuriedKeeps(symbols, nextPk, Orphans(symbols, ix'.occurrences, p), ix'.occurrences, latest');
    AppliedLiveness(ix, latest, spared, f, p, symbols, nextPk, ix'.symbols);
    forall g, u | DefinedIn(latest', g, u)
      ensures u in ix'.symbols
    {
      assert g == f || DefinedIn(latest, g, u);
    }
    assert forall g | g in latest' :: g == f || g in latest;
  }

  lemma AppliedLiveness(ix: Index, latest: map<Path, Parse>, spared: set<Uid>, f: Path, p: Parse,
                        symbols: Symbols, nextPk: nat, after: Symbols)
    requires Agrees(ix, latest, spared)
    requires Grown(ix.symbols, ix.nextPk, symbols, nextPk, Declared(p))
    requires after == Buried(symbols, Orphans(symbols, Without(ix.occurrences, f) + Found(symbols, f, p), p))
    ensures LivenessAgrees(after, latest[f := p], SparedBy(latest[f := p], p))
  {
    var latest' := latest[f := p];
    forall u | u in after
      ensures !after[u].deleted <==> DefinedSomewhere(latest', u) || u in SparedBy(latest', p)
    {
      LivenessAfter(ix, latest, spared, f, p, symbols, nextPk, u);
    }
  }

  /** Deleting a file buries exactly the symbols that only it defined. */
  lemma TombstonedLiveness(ix: Index, latest: map<Path, Parse>, spared: set<Uid>, f: Path, u: Uid)
    requires Agrees(ix, latest, spared) && u in ix.symbols
    ensures !FileTombstoned(ix, f).symbols[u].deleted <==> DefinedSomewhere(latest - {f}, u) || u in spared
  {
    var pk := ix.symbols[u].pk;
    if DefinedSomewhere(latest - {f}, u) {
      var g :| DefinedIn(latest - {f}, g, u);
      assert DefinedIn(latest, g, u);
      assert Defines(ix.occurrences, g, pk);
      assert pk !in Homeless(ix, f);
    } else if u in spared {
      NeverHomeless(ix, latest, f, u);
    } else if !ix.symbols[u].deleted {
      OnlyHome(ix, latest, f, u);
    }
  }

  lemma NeverHomeless(ix: Index, latest: map<Path, Parse>, f: Path, u: Uid)
    requires DefinitionsAgree(ix.symbols, ix.occurrences, latest) && u in ix.symbols && !DefinedSomewhere(latest, u)
    ensures ix.symbols[u].pk !in Homeless(ix, f)
  {
    assert Defines(ix.occurrences, f, ix.symbols[u].pk) <==> DefinedIn(latest, f, u);
  }

  lemma OnlyHome(ix: Index, latest: map<Path, Parse>, f: Path, u: Uid)
    requires DefinitionsAgree(ix.symbols, ix.occurrences, latest) && u in ix.symbols
    requires DefinedSomewhere(latest, u) && !DefinedSomewhere(latest - {f}, u)
    ensures ix.symbols[u].pk in Homeless(ix, f)
  {
    var pk := ix.symbols[u].pk;
    var g :| DefinedIn(latest, g, u);
    assert g == f by {
      if g != f {
        assert DefinedIn(latest - {f}, g, u);
      }
    }
    assert Defines(ix.occurrences, f, pk);
    forall o | o in ix.occurrences && o.definition && o.pk == pk
      ensures o.file == f
    {
      assert Defines(ix.occurrences, o.file, pk);
      if o.file != f {
        assert DefinedIn(latest - {f}, o.file, u);
      }
    }
    assert pk in DefinedPksIn(ix.occurrences, f);
  }

  lemma FewerDefine(latest: map<Path, Parse>, f: Path, g: Path, u: Uid)
    ensures DefinedIn(latest - {f}, g, u) <==> g != f && DefinedIn(latest, g, u)
  {
  }

  lemma TombstonedAgrees(ix: Index, latest: map<Path, Parse>, spared: set<Uid>, f: Path)
    requires Agrees(ix, latest, spared)
    ensures Agrees(FileTombstoned(ix, f), latest - {f}, spared)
  {
    var ix', latest' := FileTombstoned(ix, f), latest - {f};
    forall u | u in ix.symbols
      ensures ix'.symbols[u].pk == ix.symbols[u].pk
      ensures !ix'.symbols[u].deleted <==> DefinedSomewhere(latest', u) || u in spared
    {
      TombstonedLiveness(ix, latest, spared, f, u);
    }
    forall u, g | DefinedIn(latest', g, u)
      ensures u in ix'.symbols && u !in spared
    {
      FewerDefine(latest, f, g, u);
    }
    forall u, g | u in ix'.symbols
      ensures Defines(ix'.occurrences, g, ix'.symbols[u].pk) <==> DefinedIn(latest', g, u)
    {
      assert Defines(ix.occurrences, g, ix.symbols[u].pk) <==> DefinedIn(latest, g, u);
      FewerDefine(latest, f, g, u);
    }
  }

  lemma {:induction false} RunAgrees(history: seq<Event>)
    ensures Agrees(Run(history), Latest(history), Spared(history))
  {
    if history != [] {
      var before, e := history[..|history| - 1], history[|history| - 1];
      RunAgrees(before);
      StepAgrees(Run(before), Latest(before), Spared(before), e);
      if e.Parsed? {
        assert Spared(history) == SparedBy(Latest(history), e.parse);
      }
    }
  }

  lemma StepAgrees(ix: Index, latest: map<Path, Parse>, spared: set<Uid>, e: Event)
    requires Agrees(ix, latest, spared)
    ensures e.Parsed? ==>
              Agrees(After(ix, e), latest[e.file := e.parse], SparedBy(latest[e.file := e.parse], e.parse))
    ensures e.Unreadable? || e.Removed? ==> Agrees(After(ix, e), latest - {e.file}, spared)
    ensures e.Unparsed? || e.Embed? ==> Agrees(After(ix, e), latest, spared)
  {
    match e
    case Parsed(f, p) =>
      assert Agrees(Recorded(ix, f), latest, spared);
      AppliedAgrees(Recorded(ix, f), latest, spared, f, p);
    case Unparsed(f) =>
    case Unreadable(f) =>
      assert Agrees(Recorded(ix, f), latest, spared);
      TombstonedAgrees(Recorded(ix, f), latest, spared, f);
    case Removed(f) =>
      if f in ix.files {
        TombstonedAgrees(ix, latest, spared, f);
      } else {
        assert latest - {f} == latest;
      }
    case Embed(_, _) =>
  }

  /* ---- the promises ---- */

  predicate LiveSymbol(ix: Index, u: Uid) {
    u in ix.symbols && !ix.symbols[u].deleted
  }

  /**
   After any history, whatever the parsers returned: a symbol is live exactly when some file's latest parse defines
   it, or the last parse that was applied to any file declares it and no file defined it then.
   */
  lemma {:induction false} LiveExactlyWhen(history: seq<Event>, u: Uid)
    ensures LiveSymbol(Run(history), u) <==> DefinedSomewhere(Latest(history), u) || u in Spared(history)
  {
    RunAgrees(history);
  }

  lemma {:induction false} SparedByTheLastParse(history: seq<Event>, i: nat)
    requires i < |history| && history[i].Parsed? && forall j | i < j < |history| :: !history[j].Parsed?
    ensures Spared(history) == SparedBy(Latest(history[..i + 1]), history[i].parse)
  {
    if i == |history| - 1 {
      assert history[..i + 1] == history;
    } else {
      var before := history[..|history| - 1];
      SparedByTheLastParse(before, i);
      assert before[..i + 1] == history[..i + 1];
    }
  }

  /**
   A symbol that no file defines any more lives on exactly when the last applied parse, whichever file it was of,
   declares it, and it had no definition anywhere at that time either.
   */
  lemma {:induction false} UndefinedSurvivesIff(history: seq<Event>, i: nat, u: Uid)
    requires i < |history| && history[i].Parsed? && forall j | i < j < |history| :: !history[j].Parsed?
    requires !DefinedSomewhere(Latest(history), u)
    ensures LiveSymbol(Run(history), u)
            <==> u in Declared(history[i].parse) && !DefinedSomewhere(Latest(history[..i + 1]), u)
  {
    LiveExactlyWhen(history, u);
    SparedByTheLastParse(history, i);
  }

  lemma {:induction false} LatestIsWellFormed(history: seq<Event>, f: Path)
    requires WellFormed(history) && f in Latest(history)
    ensures WellFormedParse(Latest(history)[f])
  {
    var before, e := history[..|history| - 1], history[|history| - 1];
    if !(e.Parsed? && e.file == f) {
      LatestIsWellFormed(before, f);
    }
  }

  lemma WellFormedDefines(p: Parse, u: Uid)
    requires WellFormedParse(p)
    ensures DefinedBy(p, u) <==> u in Declared(p)
  {
  }

  /** Parsers that define what they declare leave nothing to spare. */
  lemma {:induction false} NothingSpared(history: seq<Event>)
    requires WellFormed(history)
    ensures Spared(history) == {}
    ensures forall f, u :: DeclaredIn(Latest(history), f, u) <==> DefinedIn(Latest(history), f, u)
  {
    forall f, u
      ensures DeclaredIn(Latest(history), f, u) <==> DefinedIn(Latest(history), f, u)
    {
      if f in Latest(history) {
        LatestIsWellFormed(history, f);
        WellFormedDefines(Latest(history)[f], u);
      }
    }
    if history != [] {
      var before, e := history[..|history| - 1], history[|history| - 1];
      if e.Parsed? {
        forall u | u in Declared(e.parse)
          ensures DefinedIn(Latest(history), e.file, u)
        {
          WellFormedDefines(e.parse, u);
        }
      } else {
        NothingSpared(before);
      }
    }
  }

  /**
   With such parsers a symbol is live exactly when the latest successful parse of some undeleted file declares it,
   whatever the order of parses, failures and removals.
   */
  lemma {:induction false} SymbolLiveIff(history: seq<Event>, u: Uid)
    requires WellFormed(history)
    ensures var ix, latest := Run(history), Latest(history);
            LiveSymbol(ix, u) <==> exists f :: f in ix.files && !ix.files[f] && DeclaredIn(latest, f, u)
  {
    RunAgrees(history);
    NothingSpared(history);
    var ix, latest := Run(history), Latest(history);
    if LiveSymbol(ix, u) {
      var f :| DefinedIn(latest, f, u);
      assert f in ix.files && !ix.files[f] && DeclaredIn(latest, f, u);
    }
  }

  /** An undeleted file that defines the symbol. */
  predicate IsHome(ix: Index, f: Path, pk: nat) {
    f in ix.files && !ix.files[f] && Defines(ix.occurrences, f, pk)
  }

  ghost predicate HasLiveHome(ix: Index, pk: nat) {
    exists f :: IsHome(ix, f, pk)
  }

  lemma HomeOf(ix: Index, latest: map<Path, Parse>, spared: set<Uid>, u: Uid) returns (f: Path)
    requires Agrees(ix, latest, spared) && LiveSymbol(ix, u) && u !in spared
    ensures IsHome(ix, f, ix.symbols[u].pk)
  {
    f :| DefinedIn(latest, f, u);
    assert f in latest;
    assert Defines(ix.occurrences, f, ix.symbols[u].pk) <==> DefinedIn(latest, f, u);
  }

  lemma SparedHasNone(ix: Index, latest: map<Path, Parse>, spared: set<Uid>, u: Uid, f: Path)
    requires Agrees(ix, latest, spared) && u in spared
    ensures !Defines(ix.occurrences, f, ix.symbols[u].pk)
  {
    assert Defines(ix.occurrences, f, ix.symbols[u].pk) <==> DefinedIn(latest, f, u);
  }

  lemma HomedIff(ix: Index, latest: map<Path, Parse>, spared: set<Uid>, u: Uid)
    requires Agrees(ix, latest, spared) && LiveSymbol(ix, u)
    ensures HasLiveHome(ix, ix.symbols[u].pk) <==> u !in spared
  {
    if u !in spared {
      var f := HomeOf(ix, latest, spared, u);
    } else {
      forall f
        ensures !IsHome(ix, f, ix.symbols[u].pk)
      {
        SparedHasNone(ix, latest, spared, u, f);
      }
    }
  }

  /** A live symbol has a definition in an undeleted file exactly when it was not spared. */
  lemma {:induction false} LiveSymbolsAreDefined(history: seq<Event>, u: Uid)
    requires LiveSymbol(Run(history), u)
    ensures HasLiveHome(Run(history), Run(history).symbols[u].pk) <==> u !in Spared(history)
  {
    RunAgrees(history);
    HomedIff(Run(history), Latest(history), Spared(history), u);
  }

  lemma {:induction false} RunKeepsPks(history: seq<Event>)
    ensures PksOk(Run(history).symbols, Run(history).nextPk)
  {
    if history != [] {
      var before, e := history[..|history| - 1], history[|history| - 1];
      RunKeepsPks(before);
      StepKeepsKeys(Run(before), e);
    }
  }

  /** Whatever happens, keys stay unique and a symbol's key never changes. */
  lemma StepKeepsKeys(ix: Index, e: Event)
    requires PksOk(ix.symbols, ix.nextPk)
    ensures var ix' := After(ix, e);
            && PksOk(ix'.symbols, ix'.nextPk)
            && forall u | u in ix.symbols :: u in ix'.symbols && ix'.symbols[u].pk == ix.symbols[u].pk
  {
    match e
    case Parsed(f, p) =>
      UpsertAllGrows(ix.symbols, ix.nextPk, p.symbols);
      UpsertAllDeclares(ix.symbols, ix.nextPk, p.symbols);
    case _ =>
  }

  /** A symbol keeps its key for ever: also when its definition moves to another file, or goes and comes back. */
  lemma {:induction false} KeysAreForever(history: seq<Event>, i: nat, u: Uid)
    requires i <= |history| && u in Run(history[..i]).symbols
    ensures u in Run(history).symbols
    ensures Run(history).symbols[u].pk == Run(history[..i]).symbols[u].pk
  {
    if i == |history| {
      assert history[..i] == history;
    } else {
      var before := history[..|history| - 1];
      assert before[..i] == history[..i];
      KeysAreForever(before, i, u);
      RunKeepsPks(before);
      StepKeepsKeys(Run(before), history[|history| - 1]);
    }
  }

  lemma RunNext(history: seq<Event>, e: Event)
    ensures Run(history + [e]) == After(Run(history), e)
    ensures e.Parsed? ==> Latest(history + [e]) == Latest(history)[e.file := e.parse]
  {
    assert (history + [e])[..|history|] == history;
  }

  /**
   Without a definition occurrence the law of `SymbolLiveIff` fails: a declared symbol survives the parse of its own
   file, but the next parse of any other file buries it, though its own file still declares it.
   */
  lemma UndefinedSymbolIsLost(a: Path, b: Path, d: SymbolDraft)
    requires a != b
    ensures var once := [Parsed(a, Parse([d], [], [], []))];
            var twice := once + [Parsed(b, Parse([], [], [], []))];
            && LiveSymbol(Run(once), d.uid)
            && !LiveSymbol(Run(twice), d.uid)
            && DeclaredIn(Latest(twice), a, d.uid)
  {
    var once := [Parsed(a, Parse([d], [], [], []))];
    var twice := once + [Parsed(b, Parse([], [], [], []))];
    assert once[..0] == [] && twice[..1] == once;
    assert Latest(once) == map[a := once[0].parse] && Latest(twice) == Latest(once)[b := twice[1].parse];
    assert once[..1] == once && twice[..2] == twice;
    assert d in once[0].parse.symbols;
    assert d.uid in Declared(once[0].parse);
    assert Latest(twice)[a] == once[0].parse;
    UndefinedSurvivesIff(once, 0, d.uid);
    UndefinedSurvivesIff(twice, 1, d.uid);
  }
}
