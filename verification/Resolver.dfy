/**
 Resolving the target of a relation by name (`code_index/relation_resolver.py`).
 The two symbol queries are given as functions of a name: `exact` picks a live
 symbol with that canonical name, `suffix` the shortest live symbol whose name
 ends with it.
 */
module Resolver {
  import opened Options
  import opened FileIndex

  datatype Lookup = Lookup(exact: string -> Option<nat>, suffix: string -> Option<nat>)

  type Reexports = map<string, string>

  const MAX_HOPS := 5

  /** Both queries see live symbols only, and `exact` finds one whenever there is one. */
  ghost predicate Sound(lookup: Lookup, symbols: Symbols, suffixOf: (string, string) -> bool) {
    && (forall name | lookup.exact(name).Some? :: IsLive(symbols, lookup.exact(name).value, name))
    && (forall name, u | lookup.exact(name).None? && u in symbols && !symbols[u].deleted ::
          symbols[u].canonical != name)
    && (forall name | lookup.suffix(name).Some? ::
          exists u :: u in symbols && !symbols[u].deleted && symbols[u].pk == lookup.suffix(name).value
                      && suffixOf(name, symbols[u].canonical))
  }

  ghost predicate IsLive(symbols: Symbols, pk: nat, name: string) {
    exists u :: u in symbols && !symbols[u].deleted && symbols[u].pk == pk && symbols[u].canonical == name
  }

  ghost predicate IsLivePk(symbols: Symbols, pk: nat) {
    exists u :: u in symbols && !symbols[u].deleted && symbols[u].pk == pk
  }

  /* ---- what the resolver is for, without its seen-set ---- */

  /** The name after `n` re-exports. */
  function Hop(reexports: Reexports, name: string, n: nat): Option<string> {
    if n == 0 then Some(name)
    else
      var before := Hop(reexports, name, n - 1);
      if before.Some? && before.value in reexports then Some(reexports[before.value]) else None
  }

  function Hit(lookup: Lookup, reexports: Reexports, name: string, n: nat): Option<nat> {
    var hop := Hop(reexports, name, n);
    if hop.Some? then lookup.exact(hop.value) else None
  }

  /** The first live symbol on the chain, from hop `n` up to the last. */
  function FirstLive(lookup: Lookup, reexports: Reexports, name: string, n: nat): Option<nat>
    decreases MAX_HOPS + 1 - n
  {
    if n > MAX_HOPS then None
    else if Hit(lookup, reexports, name, n).Some? then Hit(lookup, reexports, name, n)
    else FirstLive(lookup, reexports, name, n + 1)
  }

  function ExactOrReexport(lookup: Lookup, reexports: Reexports, candidates: seq<string>): Option<nat> {
    if candidates == [] then None
    else
      var hit := FirstLive(lookup, reexports, candidates[0], 0);
      if hit.Some? then hit else ExactOrReexport(lookup, reexports, candidates[1..])
  }

  function Suffix(lookup: Lookup, candidates: seq<string>): Option<nat> {
    if candidates == [] then None
    else if lookup.suffix(candidates[0]).Some? then lookup.suffix(candidates[0])
    else Suffix(lookup, candidates[1..])
  }

  /** All tiers of one candidate before the next candidate. */
  function ByCandidate(lookup: Lookup, reexports: Reexports, candidates: seq<string>): Option<nat> {
    if candidates == [] then None
    else
      var hit := FirstLive(lookup, reexports, candidates[0], 0);
      if hit.Some? then hit
      else if lookup.suffix(candidates[0]).Some? then lookup.suffix(candidates[0])
      else ByCandidate(lookup, reexports, candidates[1..])
  }

  /** All candidates of one tier before the next tier, with precise names in between; and whether those hit. */
  function ByTier(lookup: Lookup, reexports: Reexports, candidates: seq<string>, precise: seq<string>)
    : (Option<nat>, bool)
  {
    var hit := ExactOrReexport(lookup, reexports, candidates);
    if hit.Some? then (hit, false)
    else
      var better := ExactOrReexport(lookup, reexports, precise);
      if better.Some? then (better, true) else (Suffix(lookup, candidates), false)
  }

  /* ---- the seen-set ---- */

  function Names(reexports: Reexports, name: string, n: nat): set<string> {
    (if n == 0 then {} else Names(reexports, name, n - 1))
    + var hop := Hop(reexports, name, n); if hop.Some? then {hop.value} else {}
  }

  lemma {:induction false} NamesHasHops(reexports: Reexports, name: string, n: nat, k: nat)
    requires k <= n && Hop(reexports, name, k).Some?
    ensures Hop(reexports, name, k).value in Names(reexports, name, n)
  {
    if k < n {
      NamesHasHops(reexports, name, n - 1, k);
    }
  }

  lemma {:induction false} NamesAreHops(reexports: Reexports, name: string, n: nat, x: string) returns (k: nat)
    requires x in Names(reexports, name, n)
    ensures k <= n && Hop(reexports, name, k) == Some(x)
  {
    if Hop(reexports, name, n) == Some(x) {
      k := n;
    } else {
      k := NamesAreHops(reexports, name, n - 1, x);
    }
  }

  /** Once the chain meets a name it has seen, it never leaves the names it has seen. */
  lemma {:induction false} CycleStaysInside(reexports: Reexports, name: string, n: nat, k: nat)
    requires Hop(reexports, name, n + 1).Some? && Hop(reexports, name, n + 1).value in Names(reexports, name, n)
    requires Hop(reexports, name, k).Some?
    ensures Hop(reexports, name, k).value in Names(reexports, name, n)
  {
    if k <= n + 1 {
      if k <= n {
        NamesHasHops(reexports, name, n, k);
      }
    } else {
      CycleStaysInside(reexports, name, n, k - 1);
      var j := NamesAreHops(reexports, name, n, Hop(reexports, name, k - 1).value);
      assert Hop(reexports, name, j + 1) == Hop(reexports, name, k);
      if j < n {
        NamesHasHops(reexports, name, n, j + 1);
      }
    }
  }

  lemma {:induction false} ChainEnded(reexports: Reexports, name: string, n: nat, k: nat)
    requires Hop(reexports, name, n).None? && n <= k
    ensures Hop(reexports, name, k).None?
  {
    if n < k {
      ChainEnded(reexports, name, n, k - 1);
    }
  }

  lemma {:induction false} NothingAhead(lookup: Lookup, reexports: Reexports, name: string, n: nat)
    requires forall k | n <= k <= MAX_HOPS :: Hit(lookup, reexports, name, k).None?
    ensures FirstLive(lookup, reexports, name, n).None?
    decreases MAX_HOPS + 1 - n
  {
    if n <= MAX_HOPS {
      NothingAhead(lookup, reexports, name, n + 1);
    }
  }

  /** Stopping at a name seen before misses nothing: none of the seen names is live. */
  lemma CycleHitsNothing(lookup: Lookup, reexports: Reexports, name: string, n: nat)
    requires Hop(reexports, name, n + 1).Some? && Hop(reexports, name, n + 1).value in Names(reexports, name, n)
    requires forall x | x in Names(reexports, name, n) :: lookup.exact(x).None?
    ensures FirstLive(lookup, reexports, name, n + 1).None?
  {
    forall k | n + 1 <= k <= MAX_HOPS
      ensures Hit(lookup, reexports, name, k).None?
    {
      if Hop(reexports, name, k).Some? {
        CycleStaysInside(reexports, name, n, k);
      }
    }
    NothingAhead(lookup, reexports, name, n + 1);
  }

  lemma EndHitsNothing(lookup: Lookup, reexports: Reexports, name: string, n: nat)
    requires Hop(reexports, name, n).None?
    ensures FirstLive(lookup, reexports, name, n).None?
  {
    forall k | n <= k <= MAX_HOPS
      ensures Hit(lookup, reexports, name, k).None?
    {
      ChainEnded(reexports, name, n, k);
    }
    NothingAhead(lookup, reexports, name, n);
  }

  /**
   The exact query and the walk along the re-exports: five hops at most, stopping early at a name already seen.
   It finds the first live symbol among at most five re-export hops, cycles or not.
   */
  method WalkChain(lookup: Lookup, reexports: Reexports, name: string) returns (pk: Option<nat>)
    ensures pk == FirstLive(lookup, reexports, name, 0)
  {
    pk := lookup.exact(name);
    if pk.Some? {
      return;
    }
    var seen := {name};
    var current := name;
    for i := 0 to MAX_HOPS
      invariant Hop(reexports, name, i) == Some(current)
      invariant seen == Names(reexports, name, i)
      invariant forall x | x in seen :: lookup.exact(x).None?
      invariant FirstLive(lookup, reexports, name, 0) == FirstLive(lookup, reexports, name, i + 1)
    {
      if current !in reexports {
        EndHitsNothing(lookup, reexports, name, i + 1);
        return None;
      }
      var next := reexports[current];
      if next in seen {
        CycleHitsNothing(lookup, reexports, name, i);
        return None;
      }
      seen := seen + {next};
      pk := lookup.exact(next);
      if pk.Some? {
        return;
      }
      current := next;
    }
    return None;
  }

  method MatchExactOrReexport(lookup: Lookup, reexports: Reexports, candidates: seq<string>)
    returns (pk: Option<nat>)
    ensures pk == ExactOrReexport(lookup, reexports, candidates)
  {
    for i := 0 to |candidates|
      invariant ExactOrReexport(lookup, reexports, candidates) == ExactOrReexport(lookup, reexports, candidates[i..])
    {
      pk := WalkChain(lookup, reexports, candidates[i]);
      if pk.Some? {
        return;
      }
      assert candidates[i..][1..] == candidates[i + 1..];
    }
    return None;
  }

  method MatchSuffix(lookup: Lookup, candidates: seq<string>) returns (pk: Option<nat>)
    ensures pk == Suffix(lookup, candidates)
  {
    for i := 0 to |candidates|
      invariant Suffix(lookup, candidates) == Suffix(lookup, candidates[i..])
    {
      pk := lookup.suffix(candidates[i]);
      if pk.Some? {
        return;
      }
      assert candidates[i..][1..] == candidates[i + 1..];
    }
    return None;
  }

  method TryResolveCandidates(lookup: Lookup, reexports: Reexports, candidates: seq<string>)
    returns (pk: Option<nat>)
    ensures pk == ByCandidate(lookup, reexports, candidates)
  {
    for i := 0 to |candidates|
      invariant ByCandidate(lookup, reexports, candidates) == ByCandidate(lookup, reexports, candidates[i..])
    {
      pk := WalkChain(lookup, reexports, candidates[i]);
      if pk.Some? {
        return;
      }
      pk := lookup.suffix(candidates[i]);
      if pk.Some? {
        return;
      }
      assert candidates[i..][1..] == candidates[i + 1..];
    }
    return None;
  }

  method TryResolveWithJedi(lookup: Lookup, reexports: Reexports, candidates: seq<string>, precise: seq<string>)
    returns (pk: Option<nat>, usedPrecise: bool)
    ensures (pk, usedPrecise) == ByTier(lookup, reexports, candidates, precise)
  {
    pk := MatchExactOrReexport(lookup, reexports, candidates);
    if pk.Some? {
      return pk, false;
    }
    if precise != [] {
      pk := MatchExactOrReexport(lookup, reexports, precise);
      if pk.Some? {
        return pk, true;
      }
    }
    pk := MatchSuffix(lookup, candidates);
    return pk, false;
  }

  /* ---- the two orders compared ---- */

  /** Candidate by candidate or tier by tier: something is found in the same cases. */
  lemma {:induction false} TiersFindIff(lookup: Lookup, reexports: Reexports, candidates: seq<string>)
    ensures ByTier(lookup, reexports, candidates, []).0.Some?
       <==> ByCandidate(lookup, reexports, candidates).Some?
  {
    if candidates != [] {
      TiersFindIff(lookup, reexports, candidates[1..]);
    }
  }

  /** On one candidate they agree. */
  lemma TiersAgreeOnOne(lookup: Lookup, reexports: Reexports, name: string)
    ensures ByTier(lookup, reexports, [name], []).0 == ByCandidate(lookup, reexports, [name])
  {
    var rest := [name][1..];
    assert rest == [];
    assert ExactOrReexport(lookup, reexports, rest).None? && Suffix(lookup, rest).None?;
    assert ByCandidate(lookup, reexports, rest).None?;
  }

  /** In the tiered order any exact or re-export hit beats every suffix hit, wherever they are in the list. */
  lemma {:induction false} ExactBeatsSuffix(
    lookup: Lookup, reexports: Reexports, candidates: seq<string>, precise: seq<string>, i: nat)
    returns (j: nat)
    requires i < |candidates| && FirstLive(lookup, reexports, candidates[i], 0).Some?
    ensures j <= i && FirstLive(lookup, reexports, candidates[j], 0).Some?
    ensures forall k | 0 <= k < j :: FirstLive(lookup, reexports, candidates[k], 0).None?
    ensures ExactOrReexport(lookup, reexports, candidates) == FirstLive(lookup, reexports, candidates[j], 0)
    ensures ByTier(lookup, reexports, candidates, precise) == (FirstLive(lookup, reexports, candidates[j], 0), false)
    decreases i
  {
    if FirstLive(lookup, reexports, candidates[0], 0).Some? {
      j := 0;
    } else {
      j := ExactBeatsSuffix(lookup, reexports, candidates[1..], precise, i - 1);
      j := j + 1;
    }
  }

  /** Where a suffix hit comes before every exact or re-export hit, the orders disagree about what to prefer. */
  lemma {:induction false} OrdersDifferIff(lookup: Lookup, reexports: Reexports, candidates: seq<string>)
    ensures ByTier(lookup, reexports, candidates, []).0 != ByCandidate(lookup, reexports, candidates)
       <==> && ExactOrReexport(lookup, reexports, candidates).Some?
            && SuffixFirst(lookup, reexports, candidates).Some?
            && SuffixFirst(lookup, reexports, candidates) != ExactOrReexport(lookup, reexports, candidates)
  {
    if candidates != [] {
      OrdersDifferIff(lookup, reexports, candidates[1..]);
    }
  }

  /** The first suffix hit among the candidates before the first exact or re-export hit. */
  function SuffixFirst(lookup: Lookup, reexports: Reexports, candidates: seq<string>): Option<nat> {
    if candidates == [] || FirstLive(lookup, reexports, candidates[0], 0).Some? then None
    else if lookup.suffix(candidates[0]).Some? then lookup.suffix(candidates[0])
    else SuffixFirst(lookup, reexports, candidates[1..])
  }

  /* ---- targets are live ---- */

  lemma {:induction false} ChainTargetIsLive(lookup: Lookup, reexports: Reexports, name: string, n: nat,
                            symbols: Symbols, suffixOf: (string, string) -> bool)
    requires Sound(lookup, symbols, suffixOf) && FirstLive(lookup, reexports, name, n).Some?
    ensures IsLivePk(symbols, FirstLive(lookup, reexports, name, n).value)
    decreases MAX_HOPS + 1 - n
  {
    if Hit(lookup, reexports, name, n).Some? {
      var hop := Hop(reexports, name, n).value;
      assert IsLive(symbols, lookup.exact(hop).value, hop);
    } else {
      ChainTargetIsLive(lookup, reexports, name, n + 1, symbols, suffixOf);
    }
  }

  lemma {:induction false} ExactTargetIsLive(lookup: Lookup, reexports: Reexports, candidates: seq<string>,
                            symbols: Symbols, suffixOf: (string, string) -> bool)
    requires Sound(lookup, symbols, suffixOf) && ExactOrReexport(lookup, reexports, candidates).Some?
    ensures IsLivePk(symbols, ExactOrReexport(lookup, reexports, candidates).value)
  {
    if FirstLive(lookup, reexports, candidates[0], 0).Some? {
      ChainTargetIsLive(lookup, reexports, candidates[0], 0, symbols, suffixOf);
    } else {
      ExactTargetIsLive(lookup, reexports, candidates[1..], symbols, suffixOf);
    }
  }

  lemma {:induction false} SuffixTargetIsLive(lookup: Lookup, candidates: seq<string>,
                             symbols: Symbols, suffixOf: (string, string) -> bool)
    requires Sound(lookup, symbols, suffixOf) && Suffix(lookup, candidates).Some?
    ensures IsLivePk(symbols, Suffix(lookup, candidates).value)
  {
    if lookup.suffix(candidates[0]).None? {
      SuffixTargetIsLive(lookup, candidates[1..], symbols, suffixOf);
    }
  }

  /** Whatever tier finds it, the target is a live symbol. */
  lemma TargetIsLive(lookup: Lookup, reexports: Reexports, candidates: seq<string>, precise: seq<string>,
                     symbols: Symbols, suffixOf: (string, string) -> bool)
    requires Sound(lookup, symbols, suffixOf) && ByTier(lookup, reexports, candidates, precise).0.Some?
    ensures IsLivePk(symbols, ByTier(lookup, reexports, candidates, precise).0.value)
  {
    if ExactOrReexport(lookup, reexports, candidates).Some? {
      ExactTargetIsLive(lookup, reexports, candidates, symbols, suffixOf);
    } else if ExactOrReexport(lookup, reexports, precise).Some? {
      ExactTargetIsLive(lookup, reexports, precise, symbols, suffixOf);
    } else {
      SuffixTargetIsLive(lookup, candidates, symbols, suffixOf);
    }
  }
}
