/** The bounded packer of retrieval results (`code_index/retrieval.py`). */
module ResultBudget {
  import opened Options
  import opened Utf8

  /** A result: the place of its candidate, what it shows of the candidate's body, and its byte cost. */
  datatype Hit = Hit(place: nat, text: string, cost: nat, truncated: bool)

  datatype Reason = NoTruncation | ByteBudget | Limit

  /* ---- what one candidate shows ---- */

  /** What a body shows in `room` bytes: its longest whole-character prefix that fits. */
  function Shows(body: string, room: int): string {
    body[..Fit(body, room)]
  }

  /** No longer prefix of whole characters fits. */
  lemma ShowsFits(body: string, room: nat)
    ensures Shows(body, room) <= body && Size(Shows(body, room)) <= room
    ensures forall k | |Shows(body, room)| < k <= |body| :: Size(body[..k]) > room
  {
    FitIsLongest(body, room, Fit(body, room));
    forall k | |Shows(body, room)| < k <= |body|
      ensures Size(body[..k]) > room
    {
      FitIsLongest(body, room, k);
    }
  }

  /** The width of the first character; 0 for an empty body. */
  function FirstWidth(body: string): nat {
    if body == [] then 0 else Width(body[0])
  }

  lemma ShowsNothingIff(body: string, room: int)
    ensures Size(Shows(body, room)) == 0 <==> body == [] || FirstWidth(body) > room
  {
  }

  /** How the candidate at a place fills the room that is left, if with anything. */
  type Fill = (nat, int) -> Option<Hit>

  function BodyHit(body: string, place: nat, room: int): Option<Hit> {
    var text := Shows(body, room);
    if Size(text) <= 0 then None else Some(Hit(place, text, Size(text), text != body))
  }

  function Filler(bodies: seq<string>): Fill {
    (place: nat, room: int) => if place < |bodies| then BodyHit(bodies[place], place, room) else None
  }

  lemma FillerAt(bodies: seq<string>, place: nat, room: int)
    requires place < |bodies|
    ensures Filler(bodies)(place, room) == BodyHit(bodies[place], place, room)
  {
  }

  /* ---- packing, whatever the candidates show ---- */

  function Used(hits: seq<Hit>): nat {
    if hits == [] then 0 else hits[0].cost + Used(hits[1..])
  }

  /** The hits that the loop adds from candidate `i` of `n` on, with `limit` places and `room` bytes left. */
  function Pack(fill: Fill, n: nat, i: nat, limit: int, room: int): seq<Hit>
    requires i <= n
    decreases n - i
  {
    if i == n || limit <= 0 || room <= 0 then []
    else match fill(i, room)
         case None => Pack(fill, n, i + 1, limit, room)
         case Some(hit) => if hit.truncated then [hit] else [hit] + Pack(fill, n, i + 1, limit - 1, room - hit.cost)
  }

  /** The room the loop has left when it considers candidate `j`, unless it stops before. */
  function RoomAt(fill: Fill, i: nat, limit: int, room: int, j: nat): Option<int>
    requires i <= j
    decreases j - i
  {
    if limit <= 0 || room <= 0 then None
    else if i == j then Some(room)
    else match fill(i, room)
         case None => RoomAt(fill, i + 1, limit, room, j)
         case Some(hit) => if hit.truncated then None else RoomAt(fill, i + 1, limit - 1, room - hit.cost, j)
  }

  /** Candidate `j` is a result. */
  predicate Shown(fill: Fill, i: nat, limit: int, room: int, j: nat)
    requires i <= j
  {
    var left := RoomAt(fill, i, limit, room, j);
    left.Some? && fill(j, left.value).Some?
  }

  /** A hit knows its place, costs something, and fits. */
  ghost predicate Honest(fill: Fill) {
    forall i: nat, room: int | room > 0 && fill(i, room).Some? ::
      var hit := fill(i, room).value; hit.place == i && 0 < hit.cost <= room
  }

  lemma FillerIsHonest(bodies: seq<string>)
    ensures Honest(Filler(bodies))
  {
    forall i: nat, room: int | room > 0 && Filler(bodies)(i, room).Some?
      ensures var hit := Filler(bodies)(i, room).value; hit.place == i && 0 < hit.cost <= room
    {
      ShowsFits(bodies[i], room);
    }
  }

  /** Never more results than the limit, nor more bytes than the budget. */
  lemma {:induction false} PackIsBounded(fill: Fill, n: nat, i: nat, limit: int, room: int)
    requires i <= n && Honest(fill)
    ensures |Pack(fill, n, i, limit, room)| <= (if limit > 0 then limit else 0)
    ensures |Pack(fill, n, i, limit, room)| <= n - i
    ensures Used(Pack(fill, n, i, limit, room)) <= (if room > 0 then room else 0)
    decreases n - i
  {
    if i < n && limit > 0 && room > 0 {
      match fill(i, room)
      case None => PackIsBounded(fill, n, i + 1, limit, room);
      case Some(hit) => PackIsBounded(fill, n, i + 1, limit - 1, room - hit.cost);
    }
  }

  lemma {:induction false} PlacesInRange(fill: Fill, n: nat, i: nat, limit: int, room: int, k: nat)
    requires i <= n && Honest(fill) && k < |Pack(fill, n, i, limit, room)|
    ensures i <= Pack(fill, n, i, limit, room)[k].place < n
    decreases n - i
  {
    match fill(i, room)
    case None => PlacesInRange(fill, n, i + 1, limit, room, k);
    case Some(hit) =>
      if k > 0 {
        PlacesInRange(fill, n, i + 1, limit - 1, room - hit.cost, k - 1);
      }
  }

  /** The results are a subsequence of the candidates: their places increase. */
  lemma {:induction false} PackIsSubsequence(fill: Fill, n: nat, i: nat, limit: int, room: int, k: nat, m: nat)
    requires i <= n && Honest(fill) && k < m < |Pack(fill, n, i, limit, room)|
    ensures Pack(fill, n, i, limit, room)[k].place < Pack(fill, n, i, limit, room)[m].place
    decreases n - i
  {
    match fill(i, room)
    case None => PackIsSubsequence(fill, n, i + 1, limit, room, k, m);
    case Some(hit) =>
      PlacesInRange(fill, n, i + 1, limit - 1, room - hit.cost, m - 1);
      if k > 0 {
        PackIsSubsequence(fill, n, i + 1, limit - 1, room - hit.cost, k - 1, m - 1);
      }
  }

  function Places(hits: seq<Hit>): set<nat> {
    set hit | hit in hits :: hit.place
  }

  /** They are exactly the candidates that were considered with room for something of them. */
  lemma {:induction false} ShownAreTheHits(fill: Fill, n: nat, i: nat, limit: int, room: int, j: nat)
    requires i <= j < n && Honest(fill)
    ensures j in Places(Pack(fill, n, i, limit, room)) <==> Shown(fill, i, limit, room, j)
    decreases j - i, 1
  {
    if limit > 0 && room > 0 {
      match fill(i, room)
      case None => ShownAfterNone(fill, n, i, limit, room, j);
      case Some(hit) => ShownAfterHit(fill, n, i, limit, room, j);
    }
  }

  lemma {:induction false} ShownAfterNone(fill: Fill, n: nat, i: nat, limit: int, room: int, j: nat)
    requires i <= j < n && Honest(fill) && limit > 0 && room > 0 && fill(i, room).None?
    ensures j in Places(Pack(fill, n, i, limit, room)) <==> Shown(fill, i, limit, room, j)
    decreases j - i, 0
  {
    if i < j {
      ShownAreTheHits(fill, n, i + 1, limit, room, j);
    } else {
      NothingBefore(fill, n, i + 1, limit, room, j);
    }
  }

  lemma {:induction false} ShownAfterHit(fill: Fill, n: nat, i: nat, limit: int, room: int, j: nat)
    requires i <= j < n && Honest(fill) && limit > 0 && room > 0 && fill(i, room).Some?
    ensures j in Places(Pack(fill, n, i, limit, room)) <==> Shown(fill, i, limit, room, j)
    decreases j - i, 0
  {
    var hit := fill(i, room).value;
    if hit.truncated {
      PlacesOfOne(hit);
    } else {
      PlacesOfMore(hit, Pack(fill, n, i + 1, limit - 1, room - hit.cost));
      if i < j {
        ShownAreTheHits(fill, n, i + 1, limit - 1, room - hit.cost, j);
      }
    }
  }

  lemma PlacesOfOne(hit: Hit)
    ensures Places([hit]) == {hit.place}
  {
    assert hit in [hit];
  }

  lemma PlacesOfMore(hit: Hit, rest: seq<Hit>)
    ensures Places([hit] + rest) == {hit.place} + Places(rest)
  {
    assert ([hit] + rest)[0] == hit && ([hit] + rest)[1..] == rest;
    assert forall other | other in rest :: other in [hit] + rest;
  }

  lemma NothingBefore(fill: Fill, n: nat, i: nat, limit: int, room: int, j: nat)
    requires j < i <= n && Honest(fill)
    ensures j !in Places(Pack(fill, n, i, limit, room))
  {
    var hits := Pack(fill, n, i, limit, room);
    forall hit | hit in hits
      ensures hit.place != j
    {
      var k :| 0 <= k < |hits| && hits[k] == hit;
      PlacesInRange(fill, n, i, limit, room, k);
    }
  }

  /** Every result is what its candidate fills the room with that the results before it leave; the last may be cut. */
  lemma {:induction false} PackedHits(fill: Fill, n: nat, i: nat, limit: int, room: int, k: nat)
    requires i <= n && Honest(fill) && k < |Pack(fill, n, i, limit, room)|
    ensures var hits := Pack(fill, n, i, limit, room);
            && room - Used(hits[..k]) > 0
            && fill(hits[k].place, room - Used(hits[..k])) == Some(hits[k])
            && (hits[k].truncated ==> k == |hits| - 1)
    decreases n - i
  {
    var hits := Pack(fill, n, i, limit, room);
    match fill(i, room)
    case None => PackedHits(fill, n, i + 1, limit, room, k);
    case Some(hit) =>
      if k > 0 {
        PackedHits(fill, n, i + 1, limit - 1, room - hit.cost, k - 1);
        assert hits[..k][1..] == hits[1..][..k - 1];
      }
  }

  /** While nothing has been cut short and there is a place and a byte left at the end, there was all along. */
  lemma {:induction false} RoomAllAlong(fill: Fill, n: nat, i: nat, limit: int, room: int, j: nat)
    requires i <= j < n
    requires var hits := Pack(fill, n, i, limit, room);
             |hits| < limit && Used(hits) < room && forall k | 0 <= k < |hits| :: !hits[k].truncated
    ensures var left := RoomAt(fill, i, limit, room, j); left.Some? && left.value > 0
    decreases j - i
  {
    var hits := Pack(fill, n, i, limit, room);
    if i < j {
      match fill(i, room)
      case None => RoomAllAlong(fill, n, i + 1, limit, room, j);
      case Some(hit) =>
        assert !hits[0].truncated;
        assert hits[1..] == Pack(fill, n, i + 1, limit - 1, room - hit.cost);
        RoomAllAlong(fill, n, i + 1, limit - 1, room - hit.cost, j);
    }
  }

  lemma {:induction false} FewerWhenOmitted(fill: Fill, n: nat, i: nat, limit: int, room: int, j: nat)
    requires i <= j < n && Honest(fill) && !Shown(fill, i, limit, room, j)
    ensures |Pack(fill, n, i, limit, room)| < n - i
    decreases j - i
  {
    if limit > 0 && room > 0 {
      match fill(i, room)
      case None => PackIsBounded(fill, n, i + 1, limit, room);
      case Some(hit) =>
        if i < j && !hit.truncated {
          FewerWhenOmitted(fill, n, i + 1, limit - 1, room - hit.cost, j);
        }
    }
  }

  /* ---- the loop ---- */

  function Packed(bodies: seq<string>, limit: int, budget: int): seq<Hit> {
    Pack(Filler(bodies), |bodies|, 0, limit, budget)
  }

  /** The loop's bookkeeping before candidate `i`: what it has, and what `Pack` will still add to make `all`. */
  ghost predicate Doing(all: seq<Hit>, fill: Fill, n: nat, limit: int, budget: int, i: nat, results: seq<Hit>, used: int)
    requires i <= n
  {
    var rest := Pack(fill, n, i, limit - |results|, budget - used);
    results + rest == all && used + Used(rest) == Used(all)
  }

  lemma DoingStarts(all: seq<Hit>, fill: Fill, n: nat, limit: int, budget: int)
    requires all == Pack(fill, n, 0, limit, budget)
    ensures Doing(all, fill, n, limit, budget, 0, [], 0)
  {
    assert [] + all == all;
  }

  lemma DoingNext(all: seq<Hit>, fill: Fill, n: nat, limit: int, budget: int, i: nat, results: seq<Hit>, used: int)
    requires i < n && Doing(all, fill, n, limit, budget, i, results, used)
    requires |results| < limit && used < budget
    ensures match fill(i, budget - used)
            case None => Doing(all, fill, n, limit, budget, i + 1, results, used)
            case Some(hit) =>
              if hit.truncated then results + [hit] == all && used + hit.cost == Used(all)
              else Doing(all, fill, n, limit, budget, i + 1, results + [hit], used + hit.cost)
  {
    var rest := Pack(fill, n, i, limit - |results|, budget - used);
    match fill(i, budget - used)
    case None =>
    case Some(hit) =>
      assert results + rest == (results + [rest[0]]) + rest[1..];
      assert Used(rest) == hit.cost + Used(rest[1..]);
      if hit.truncated {
        assert rest[1..] == [];
        assert Used(rest[1..]) == 0;
      }
  }

  lemma DoingDone(all: seq<Hit>, fill: Fill, n: nat, limit: int, budget: int, i: nat, results: seq<Hit>, used: int)
    requires i <= n && Doing(all, fill, n, limit, budget, i, results, used)
    requires i == n || |results| >= limit || used >= budget
    ensures results == all && used == Used(all)
  {
    assert results + [] == results;
  }

  method ClipBody(body: string, place: nat, remaining: int) returns (hit: Option<Hit>)
    ensures hit == BodyHit(body, place, remaining)
  {
    var text, truncated := ClipUtf8(body, remaining);
    var cost := Size(text);
    hit := if cost <= 0 then None else Some(Hit(place, text, cost, truncated));
  }

  /** One round of the loop of `_apply_budget`; `stop` is its `break`. */
  method Consider(body: string, i: nat, limit: int, budget: int, results: seq<Hit>, used: int,
                  ghost all: seq<Hit>, ghost fill: Fill, ghost n: nat)
    returns (now: seq<Hit>, spent: int, stop: bool)
    requires i < n && Doing(all, fill, n, limit, budget, i, results, used)
    requires fill(i, budget - used) == BodyHit(body, i, budget - used)
    ensures stop ==> now == all && spent == Used(all)
    ensures !stop ==> Doing(all, fill, n, limit, budget, i + 1, now, spent)
  {
    var remaining := budget - used;
    if |results| >= limit || remaining <= 0 {
      DoingDone(all, fill, n, limit, budget, i, results, used);
      return results, used, true;
    }
    DoingNext(all, fill, n, limit, budget, i, results, used);
    var hit := ClipBody(body, i, remaining);
    if hit.None? {
      return results, used, false;
    }
    return results + [hit.value], used + hit.value.cost, hit.value.truncated;
  }

  /** `_apply_budget`. */
  method ApplyBudget(bodies: seq<string>, limit: int, budget: int) returns (results: seq<Hit>, used: int)
    ensures results == Packed(bodies, limit, budget)
    ensures used == Used(results)
  {
    results, used := [], 0;
    ghost var fill, n, all := Filler(bodies), |bodies|, Packed(bodies, limit, budget);
    DoingStarts(all, fill, n, limit, budget);
    for i := 0 to |bodies|
      invariant Doing(all, fill, n, limit, budget, i, results, used)
    {
      var stop;
      FillerAt(bodies, i, budget - used);
      results, used, stop := Consider(bodies[i], i, limit, budget, results, used, all, fill, n);
      if stop {
        return;
      }
    }
    DoingDone(all, fill, n, limit, budget, n, results, used);
  }

  /* ---- what the packer promises ---- */

  /**
   Every text is the longest whole-character prefix of its candidate's body that fits the budget left by the
   results before it, with that cost; it is marked exactly when it is cut, which only the last one may be.
   */
  lemma PackedTexts(bodies: seq<string>, limit: int, budget: int, k: nat)
    requires k < |Packed(bodies, limit, budget)|
    ensures var hits := Packed(bodies, limit, budget);
            var left := budget - Used(hits[..k]);
            && left > 0 && hits[k].place < |bodies|
            && hits[k].text == Shows(bodies[hits[k].place], left)
            && hits[k].cost == Size(hits[k].text) > 0
            && (hits[k].truncated <==> hits[k].text != bodies[hits[k].place])
            && (hits[k].truncated ==> k == |hits| - 1)
  {
    FillerIsHonest(bodies);
    PackedHits(Filler(bodies), |bodies|, 0, limit, budget, k);
  }

  /** The results are a subsequence of the candidates, at most `limit` many and within the budget. */
  lemma PackedIsBounded(bodies: seq<string>, limit: int, budget: int)
    ensures var hits := Packed(bodies, limit, budget);
            && |hits| <= (if limit > 0 then limit else 0)
            && Used(hits) <= (if budget > 0 then budget else 0)
            && (forall k, m | 0 <= k < m < |hits| :: hits[k].place < hits[m].place)
  {
    FillerIsHonest(bodies);
    PackIsBounded(Filler(bodies), |bodies|, 0, limit, budget);
    var hits := Packed(bodies, limit, budget);
    forall k, m | 0 <= k < m < |hits|
      ensures hits[k].place < hits[m].place
    {
      PackIsSubsequence(Filler(bodies), |bodies|, 0, limit, budget, k, m);
    }
  }

  /* ---- the reason of the response ---- */

  /** `_response_truncation_reason`. */
  function ResponseReason(candidates: nat, hits: seq<Hit>, used: int, limit: int, budget: int): Reason {
    if exists i :: 0 <= i < |hits| && hits[i].truncated then ByteBudget
    else if |hits| < candidates && used >= budget then ByteBudget
    else if |hits| >= limit && |hits| < candidates then Limit
    else NoTruncation
  }

  /** The reason that the response of `retrieve` carries. */
  function ReasonOf(bodies: seq<string>, limit: int, budget: int): Reason {
    var hits := Packed(bodies, limit, budget);
    ResponseReason(|bodies|, hits, Used(hits), limit, budget)
  }

  predicate Omitted(bodies: seq<string>, limit: int, budget: int, j: nat) {
    j < |bodies| && !Shown(Filler(bodies), 0, limit, budget, j)
  }

  /**
   Reason NONE means that every omitted candidate would have added zero bytes: it was considered with room left,
   and its body is empty or begins with a character wider than that room.
   */
  lemma NoneMeansNothingToAdd(bodies: seq<string>, limit: int, budget: int, j: nat)
    requires ReasonOf(bodies, limit, budget).NoTruncation? && Omitted(bodies, limit, budget, j)
    ensures var left := RoomAt(Filler(bodies), 0, limit, budget, j);
            && left.Some? && left.value > 0
            && Size(Shows(bodies[j], left.value)) == 0
            && (bodies[j] == [] || FirstWidth(bodies[j]) > left.value)
  {
    var fill, n := Filler(bodies), |bodies|;
    FillerIsHonest(bodies);
    FewerWhenOmitted(fill, n, 0, limit, budget, j);
    RoomAllAlong(fill, n, 0, limit, budget, j);
    ShowsNothingIff(bodies[j], RoomAt(fill, 0, limit, budget, j).value);
  }

  /** Exactly: all results are whole, and either all candidates are results or places and bytes were left over. */
  lemma NoneIff(bodies: seq<string>, limit: int, budget: int)
    ensures var hits := Packed(bodies, limit, budget);
            ReasonOf(bodies, limit, budget).NoTruncation?
            <==> && (forall k | 0 <= k < |hits| :: hits[k].place < |bodies| && hits[k].text == bodies[hits[k].place])
                 && (|hits| == |bodies| || (|hits| < limit && Used(hits) < budget))
  {
    var hits := Packed(bodies, limit, budget);
    FillerIsHonest(bodies);
    PackIsBounded(Filler(bodies), |bodies|, 0, limit, budget);
    forall k | 0 <= k < |hits|
      ensures hits[k].place < |bodies|
      ensures hits[k].truncated <==> hits[k].text != bodies[hits[k].place]
    {
      PackedTexts(bodies, limit, budget, k);
    }
  }

  /** Exactly: a text is cut, or the budget is used up to its last byte and some candidate is no result. */
  lemma ByteBudgetIff(bodies: seq<string>, limit: int, budget: int)
    ensures var hits := Packed(bodies, limit, budget);
            ReasonOf(bodies, limit, budget).ByteBudget?
            <==> || (exists k :: 0 <= k < |hits| && hits[k].place < |bodies| && hits[k].text != bodies[hits[k].place])
                 || (|hits| < |bodies| && Used(hits) == if budget > 0 then budget else 0)
  {
    var hits := Packed(bodies, limit, budget);
    FillerIsHonest(bodies);
    PackIsBounded(Filler(bodies), |bodies|, 0, limit, budget);
    forall k | 0 <= k < |hits|
      ensures hits[k].place < |bodies|
      ensures hits[k].truncated <==> hits[k].text != bodies[hits[k].place]
    {
      PackedTexts(bodies, limit, budget, k);
    }
  }

  /** Exactly: every text is whole, every place is taken, bytes are left, and some candidate is no result. */
  lemma LimitIff(bodies: seq<string>, limit: int, budget: int)
    ensures var hits := Packed(bodies, limit, budget);
            ReasonOf(bodies, limit, budget).Limit?
            <==> && (forall k | 0 <= k < |hits| :: hits[k].place < |bodies| && hits[k].text == bodies[hits[k].place])
                 && |hits| == (if limit > 0 then limit else 0) < |bodies|
                 && Used(hits) < budget
  {
    var hits := Packed(bodies, limit, budget);
    FillerIsHonest(bodies);
    PackIsBounded(Filler(bodies), |bodies|, 0, limit, budget);
    forall k | 0 <= k < |hits|
      ensures hits[k].place < |bodies|
      ensures hits[k].truncated <==> hits[k].text != bodies[hits[k].place]
    {
      PackedTexts(bodies, limit, budget, k);
    }
  }

  /** So NONE can hide text: a body whose first character is wider than the room left is dropped silently. */
  lemma NoneCanHideText(bodies: seq<string>)
    requires bodies == ["A", "\U{20AC}"]
    ensures Packed(bodies, 2, 2) == [Hit(0, "A", 1, false)]
    ensures ReasonOf(bodies, 2, 2).NoTruncation?
  {
    var fill, hit := Filler(bodies), Hit(0, "A", 1, false);
    assert fill(0, 2) == Some(hit);
    ShowsNothingIff("\U{20AC}", 1);
    assert fill(1, 1).None?;
    assert Pack(fill, 2, 1, 1, 1) == Pack(fill, 2, 2, 1, 1) == [];
    assert Pack(fill, 2, 0, 2, 2) == [hit] + [];
    assert Used([hit]) == 1 + Used([hit][1..]);
  }

  /** It hides nothing where every body is empty or begins with a one-byte character. */
  lemma NoneHidesNoNarrowText(bodies: seq<string>, limit: int, budget: int, j: nat)
    requires ReasonOf(bodies, limit, budget).NoTruncation? && Omitted(bodies, limit, budget, j)
    requires FirstWidth(bodies[j]) <= 1
    ensures bodies[j] == []
  {
    NoneMeansNothingToAdd(bodies, limit, budget, j);
  }
}
