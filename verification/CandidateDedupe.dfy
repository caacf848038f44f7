/** Deduplication of retrieval candidates (`code_index/retrieval.py`). */
module CandidateDedupe {
  datatype Span = Span(path: string, start: int, end: int, symbol: string)

  /** What deduplication reads of a candidate's source; an empty path is no path. */
  datatype Origin = FileResult(path: string) | ChunkResult(span: Span, wholeFile: bool) | OtherResult

  /** `key` is the sort key, as a rank. */
  datatype Candidate = Candidate(handle: string, key: int, origin: Origin)

  /* ---- sorting ---- */

  predicate Ordered(cs: seq<Candidate>) {
    forall i, j | 0 <= i < j < |cs| :: cs[i].key <= cs[j].key
  }

  /** `c` goes behind its equals. */
  function Insert(cs: seq<Candidate>, c: Candidate): seq<Candidate> {
    if cs == [] || cs[|cs| - 1].key <= c.key then cs + [c]
    else Insert(cs[..|cs| - 1], c) + [cs[|cs| - 1]]
  }

  /** Python's `sorted` by key. */
  function StableSort(cs: seq<Candidate>): seq<Candidate> {
    if cs == [] then [] else Insert(StableSort(cs[..|cs| - 1]), cs[|cs| - 1])
  }

  /** The candidates with one key, in order. */
  function WithKey(cs: seq<Candidate>, key: int): seq<Candidate> {
    if cs == [] then []
    else
      var n := |cs| - 1;
      WithKey(cs[..n], key) + if cs[n].key == key then [cs[n]] else []
  }

  lemma {:induction false} InsertPermutes(cs: seq<Candidate>, c: Candidate)
    ensures multiset(Insert(cs, c)) == multiset(cs) + multiset{c}
  {
    if cs != [] && cs[|cs| - 1].key > c.key {
      InsertPermutes(cs[..|cs| - 1], c);
      assert cs == cs[..|cs| - 1] + [cs[|cs| - 1]];
    }
  }

  lemma {:induction false} InsertOrders(cs: seq<Candidate>, c: Candidate)
    requires Ordered(cs)
    ensures Ordered(Insert(cs, c))
  {
    if cs != [] && cs[|cs| - 1].key > c.key {
      var front, last := cs[..|cs| - 1], cs[|cs| - 1];
      InsertOrders(front, c);
      InsertPermutes(front, c);
      forall i | 0 <= i < |Insert(front, c)|
        ensures Insert(front, c)[i].key <= last.key
      {
        assert Insert(front, c)[i] in multiset(Insert(front, c));
      }
    }
  }

  lemma WithKeyLast(cs: seq<Candidate>, c: Candidate, key: int)
    ensures WithKey(cs + [c], key) == WithKey(cs, key) + if c.key == key then [c] else []
  {
    assert (cs + [c])[..|cs|] == cs;
  }

  lemma {:induction false} InsertIsStable(cs: seq<Candidate>, c: Candidate, key: int)
    ensures WithKey(Insert(cs, c), key) == WithKey(cs, key) + if c.key == key then [c] else []
  {
    WithKeyLast(cs, c, key);
    if cs != [] && cs[|cs| - 1].key > c.key {
      var front, last := cs[..|cs| - 1], cs[|cs| - 1];
      InsertIsStable(front, c, key);
      WithKeyLast(Insert(front, c), last, key);
    }
  }

  lemma {:induction false} StableSortIsStable(cs: seq<Candidate>, key: int)
    ensures WithKey(StableSort(cs), key) == WithKey(cs, key)
  {
    if cs != [] {
      var front, last := cs[..|cs| - 1], cs[|cs| - 1];
      StableSortIsStable(front, key);
      InsertIsStable(StableSort(front), last, key);
    }
  }

  /** Sorting gives an ordered permutation that keeps the order of candidates with the same key. */
  lemma {:induction false} StableSortSorts(cs: seq<Candidate>)
    ensures Ordered(StableSort(cs))
    ensures multiset(StableSort(cs)) == multiset(cs)
    ensures forall key :: WithKey(StableSort(cs), key) == WithKey(cs, key)
  {
    if cs != [] {
      var front, last := cs[..|cs| - 1], cs[|cs| - 1];
      StableSortSorts(front);
      InsertOrders(StableSort(front), last);
      InsertPermutes(StableSort(front), last);
      assert cs == front + [last];
    }
    forall key
      ensures WithKey(StableSort(cs), key) == WithKey(cs, key)
    {
      StableSortIsStable(cs, key);
    }
  }

  lemma {:induction false} SortedStays(cs: seq<Candidate>)
    requires Ordered(cs)
    ensures StableSort(cs) == cs
  {
    if cs != [] {
      SortedStays(cs[..|cs| - 1]);
    }
  }

  /* ---- filtering ---- */

  function MatchedPaths(cs: seq<Candidate>): set<string> {
    set c | c in cs && c.origin.FileResult? && c.origin.path != "" :: c.origin.path
  }

  predicate SameSpan(c: Candidate, d: Candidate) {
    c.origin.ChunkResult? && d.origin.ChunkResult? && c.origin.span == d.origin.span && c.origin.span.path != ""
  }

  /** `c` is a whole-file chunk of a file that is a candidate itself. */
  predicate Covered(c: Candidate, matched: set<string>) {
    c.origin.ChunkResult? && c.origin.wholeFile && c.origin.span.path in matched
  }

  predicate Dropped(before: seq<Candidate>, c: Candidate, matched: set<string>) {
    || (exists d :: d in before && d.handle == c.handle)
    || Covered(c, matched)
    || (exists d :: d in before && SameSpan(c, d))
  }

  function Kept(cs: seq<Candidate>, matched: set<string>): seq<Candidate> {
    if cs == [] then []
    else
      var n := |cs| - 1;
      var before := Kept(cs[..n], matched);
      if Dropped(before, cs[n], matched) then before else before + [cs[n]]
  }

  function Deduped(cs: seq<Candidate>): seq<Candidate> {
    Kept(StableSort(cs), MatchedPaths(cs))
  }

  method DedupeCandidates(candidates: seq<Candidate>) returns (out: seq<Candidate>)
    ensures out == Deduped(candidates)
  {
    var matched := MatchedPaths(candidates);
    var sorted := StableSort(candidates);
    var seenHandles: set<string> := {};
    var seenSpans: set<Span> := {};
    out := [];
    for i := 0 to |sorted|
      invariant out == Kept(sorted[..i], matched)
      invariant forall h :: h in seenHandles <==> exists d :: d in out && d.handle == h
      invariant forall s :: s in seenSpans <==>
                  s.path != "" && exists d :: d in out && d.origin.ChunkResult? && d.origin.span == s
    {
      var c := sorted[i];
      assert sorted[..i + 1][..i] == sorted[..i];
      if c.handle in seenHandles {
        continue;
      }
      if c.origin.ChunkResult? {
        if c.origin.wholeFile && c.origin.span.path in matched {
          continue;
        }
        if c.origin.span.path != "" && c.origin.span in seenSpans {
          continue;
        }
        if c.origin.span.path != "" {
          seenSpans := seenSpans + {c.origin.span};
        }
      }
      seenHandles := seenHandles + {c.handle};
      out := out + [c];
    }
    assert sorted[..|sorted|] == sorted;
  }

  /* ---- what is kept, and why the rest is not ---- */

  predicate Unique(cs: seq<Candidate>) {
    forall i, j | 0 <= i < j < |cs| :: cs[i].handle != cs[j].handle && !SameSpan(cs[j], cs[i])
  }

  lemma {:induction false} KeptIsUnique(cs: seq<Candidate>, matched: set<string>)
    ensures Unique(Kept(cs, matched))
    ensures forall c | c in Kept(cs, matched) :: c in cs && !Covered(c, matched)
  {
    if cs != [] {
      KeptIsUnique(cs[..|cs| - 1], matched);
    }
  }

  lemma {:induction false} KeptIsOrdered(cs: seq<Candidate>, matched: set<string>)
    requires Ordered(cs)
    ensures Ordered(Kept(cs, matched))
  {
    if cs != [] {
      var front, last := cs[..|cs| - 1], cs[|cs| - 1];
      var before := Kept(front, matched);
      KeptIsOrdered(front, matched);
      KeptIsUnique(front, matched);
      forall i | 0 <= i < |before|
        ensures before[i].key <= last.key
      {
        assert before[i] in front;
      }
    }
  }

  /** The reason a candidate is missing: a kept one before it has its handle or its span, or its file is a candidate. */
  ghost predicate HasWitness(c: Candidate, kept: seq<Candidate>, matched: set<string>) {
    || Covered(c, matched)
    || (exists d :: d in kept && d.key <= c.key && (d.handle == c.handle || SameSpan(c, d)))
  }

  lemma {:induction false} DroppedHaveWitnesses(cs: seq<Candidate>, matched: set<string>, c: Candidate)
    requires Ordered(cs) && c in cs
    ensures c in Kept(cs, matched) || HasWitness(c, Kept(cs, matched), matched)
  {
    var n := |cs| - 1;
    var before := Kept(cs[..n], matched);
    KeptIsUnique(cs[..n], matched);
    if c in cs[..n] {
      DroppedHaveWitnesses(cs[..n], matched, c);
    } else {
      assert c == cs[n];
    }
  }

  lemma {:induction false} UniqueStays(cs: seq<Candidate>, matched: set<string>)
    requires Unique(cs) && forall c | c in cs :: !Covered(c, matched)
    ensures Kept(cs, matched) == cs
  {
    if cs != [] {
      var front, last := cs[..|cs| - 1], cs[|cs| - 1];
      assert cs == front + [last];
      assert forall d | d in front :: d.handle != last.handle && !SameSpan(last, d);
      UniqueStays(front, matched);
    }
  }

  /* ---- the promises of `_dedupe_candidates` ---- */

  /** The output is ordered by key, made of input candidates, and has unique handles and unique non-empty spans. */
  lemma DedupedIsUnique(cs: seq<Candidate>)
    ensures Ordered(Deduped(cs)) && Unique(Deduped(cs))
    ensures forall c | c in Deduped(cs) :: c in cs
  {
    StableSortSorts(cs);
    KeptIsUnique(StableSort(cs), MatchedPaths(cs));
    KeptIsOrdered(StableSort(cs), MatchedPaths(cs));
    forall c | c in Deduped(cs)
      ensures c in cs
    {
      assert c in multiset(StableSort(cs));
    }
  }

  /** No chunk that is a whole file is kept beside a candidate for that file. */
  lemma NothingCoveredIsKept(cs: seq<Candidate>, c: Candidate)
    requires c in Deduped(cs)
    ensures !(c.origin.ChunkResult? && c.origin.wholeFile && c.origin.span.path != ""
              && exists d :: d in cs && d.origin == FileResult(c.origin.span.path))
  {
    KeptIsUnique(StableSort(cs), MatchedPaths(cs));
    forall d | d in cs && d.origin.FileResult? && d.origin.path != ""
      ensures d.origin.path in MatchedPaths(cs)
    {
    }
  }

  /** Handles name their candidates: the handle of a file result is no other candidate's. */
  predicate Named(cs: seq<Candidate>) {
    forall c, d | c in cs && d in cs && c.handle == d.handle && c.origin.FileResult? :: d.origin == c.origin
  }

  predicate Witnesses(d: Candidate, c: Candidate, matched: set<string>) {
    || (d.key <= c.key && d.handle == c.handle)
    || (d.key <= c.key && c.origin.ChunkResult? && d.origin.ChunkResult? && c.origin.span == d.origin.span
        && c.origin.span.path != "")
    || (c.origin.ChunkResult? && c.origin.wholeFile && c.origin.span.path in matched
        && d.origin == FileResult(c.origin.span.path))
  }

  lemma DropReason(cs: seq<Candidate>, c: Candidate)
    requires c in cs
    ensures c in Deduped(cs) || HasWitness(c, Deduped(cs), MatchedPaths(cs))
  {
    StableSortSorts(cs);
    assert c in multiset(StableSort(cs));
    DroppedHaveWitnesses(StableSort(cs), MatchedPaths(cs), c);
  }

  /** The file of a covered chunk is kept as a file result. */
  lemma CoveringFileIsKept(cs: seq<Candidate>, c: Candidate)
    requires Named(cs) && Covered(c, MatchedPaths(cs))
    ensures exists d :: d in Deduped(cs) && d.origin == FileResult(c.origin.span.path)
  {
    var f :| f in cs && f.origin == FileResult(c.origin.span.path);
    DropReason(cs, f);
    DedupedIsUnique(cs);
    if f !in Deduped(cs) {
      var d :| d in Deduped(cs) && d.handle == f.handle;
      assert d.origin == f.origin;
    }
  }

  /** Every dropped candidate has a kept witness: the same handle, the same span, or the file result of its path. */
  lemma EveryDropHasAKeptWitness(cs: seq<Candidate>, c: Candidate)
    requires Named(cs) && c in cs && c !in Deduped(cs)
    ensures exists d :: d in Deduped(cs) && Witnesses(d, c, MatchedPaths(cs))
  {
    DropReason(cs, c);
    if Covered(c, MatchedPaths(cs)) {
      CoveringFileIsKept(cs, c);
      var d :| d in Deduped(cs) && d.origin == FileResult(c.origin.span.path);
      assert Witnesses(d, c, MatchedPaths(cs));
    } else {
      var d :| d in Deduped(cs) && d.key <= c.key && (d.handle == c.handle || SameSpan(c, d));
      assert Witnesses(d, c, MatchedPaths(cs));
    }
  }

  /** A second pass changes nothing. */
  lemma DedupeIsIdempotent(cs: seq<Candidate>)
    ensures Deduped(Deduped(cs)) == Deduped(cs)
  {
    var once := Deduped(cs);
    DedupedIsUnique(cs);
    KeptIsUnique(StableSort(cs), MatchedPaths(cs));
    SortedStays(once);
    UniqueStays(once, MatchedPaths(once));
  }
}
