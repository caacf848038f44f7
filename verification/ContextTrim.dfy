/**
 Fitting a context packet into a token budget
 (`code_index/commands/context_cmd.py`). A packet keeps its trimmable lists as
 columns: `pathChunks[i]` is `selected_paths[i].chunks`. How many characters
 a packet renders to is given as a function.
 */
module ContextTrim {
  import opened Options

  /** A list element; `node` is its `node_id`, empty when it has none. */
  datatype Item = Item(node: string, text: string)

  datatype Budget = Budget(tokens: int, estimated: nat, truncated: bool)

  datatype Packet = Packet(
    matchingChunks: seq<Item>,
    repoSymbols: seq<Item>,
    pathChunks: seq<seq<Item>>,
    nodeChunks: seq<seq<Item>>,
    nodeFileChunks: seq<seq<Item>>,
    pathSymbols: seq<seq<Item>>,
    recentEvents: seq<Item>,
    recentFiles: seq<Item>,
    activeRuns: seq<Item>,
    notes: seq<Item>,
    byNode: map<string, Item>,
    cliCommands: seq<Item>,
    mcpTools: seq<Item>,
    markdown: string,
    budget: Budget)

  const LONG_MARKDOWN := 220
  const KEPT_MARKDOWN := 216

  /* ---- one cut ---- */

  /** The lists without the last element of their last non-empty list. */
  function PopNested(lists: seq<seq<Item>>): seq<seq<Item>> {
    if lists == [] then []
    else
      var n := |lists| - 1;
      if lists[n] != [] then lists[n := lists[n][..|lists[n]| - 1]] else PopNested(lists[..n]) + [lists[n]]
  }

  predicate AllEmpty(lists: seq<seq<Item>>) {
    forall i | 0 <= i < |lists| :: lists[i] == []
  }

  function ByNode(notes: seq<Item>): map<string, Item> {
    if notes == [] then map[]
    else
      var n := |notes| - 1;
      if notes[n].node == "" then ByNode(notes[..n]) else ByNode(notes[..n])[notes[n].node := notes[n]]
  }

  predicate IsLastNote(notes: seq<Item>, i: nat, node: string) {
    i < |notes| && notes[i].node == node && forall j | i < j < |notes| :: notes[j].node != node
  }

  /** `by_node` has the named notes, and of notes with one name the last. */
  lemma {:induction false} ByNodeHasTheLastNotes(notes: seq<Item>, node: string)
    ensures node in ByNode(notes) <==> node != "" && exists i :: 0 <= i < |notes| && notes[i].node == node
    ensures node in ByNode(notes) ==> exists i: nat :: IsLastNote(notes, i, node) && ByNode(notes)[node] == notes[i]
  {
    if notes != [] {
      var n := |notes| - 1;
      ByNodeHasTheLastNotes(notes[..n], node);
      assert notes == notes[..n] + [notes[n]];
      if notes[n].node == node {
        assert IsLastNote(notes, n, node);
      } else if node in ByNode(notes) {
        assert node in ByNode(notes[..n]);
        var i: nat :| IsLastNote(notes[..n], i, node) && ByNode(notes[..n])[node] == notes[..n][i];
        assert IsLastNote(notes, i, node);
      }
    }
  }

  /** What `str.isspace` says of one character. */
  predicate IsSpace(c: char) {
    var code := c as int;
    || 0x09 <= code <= 0x0d || 0x1c <= code <= 0x20
    || code in {0x85, 0xa0, 0x1680, 0x2028, 0x2029, 0x202f, 0x205f, 0x3000}
    || 0x2000 <= code <= 0x200a
  }

  function RStrip(s: string): (r: string)
    ensures r <= s
  {
    if s != [] && IsSpace(s[|s| - 1]) then RStrip(s[..|s| - 1]) else s
  }

  lemma {:induction false} RStripStripsSpaces(s: string)
    ensures RStrip(s) != [] ==> !IsSpace(RStrip(s)[|RStrip(s)| - 1])
    ensures forall i | |RStrip(s)| <= i < |s| :: IsSpace(s[i])
  {
    if s != [] && IsSpace(s[|s| - 1]) {
      RStripStripsSpaces(s[..|s| - 1]);
    }
  }

  function Shortened(markdown: string): string
    requires |markdown| > LONG_MARKDOWN
  {
    RStrip(markdown[..KEPT_MARKDOWN]) + "...\n"
  }

  /** The code points that Python counts as white space. */
  const WHITE := {
    0x09, 0x0a, 0x0b, 0x0c, 0x0d, 0x1c, 0x1d, 0x1e, 0x1f, 0x20, 0x85, 0xa0, 0x1680,
    0x2000, 0x2001, 0x2002, 0x2003, 0x2004, 0x2005, 0x2006, 0x2007, 0x2008, 0x2009, 0x200a,
    0x2028, 0x2029, 0x202f, 0x205f, 0x3000}

  lemma SpaceIsWhite(c: char)
    ensures IsSpace(c) <==> c as int in WHITE
  {
  }

  /** Markdown over 220 characters keeps its first 216, without white space at their end, and gets dots. */
  lemma ShortenedIs(markdown: string) returns (n: nat)
    requires |markdown| > 220
    ensures n <= 216 && Shortened(markdown) == markdown[..n] + "...\n"
    ensures forall i | n <= i < 216 :: markdown[i] as int in WHITE
    ensures n > 0 ==> markdown[n - 1] as int !in WHITE
  {
    var kept := markdown[..216];
    RStripStripsSpaces(kept);
    n := |RStrip(kept)|;
    assert RStrip(kept) == markdown[..n];
    forall i | n <= i < 216
      ensures markdown[i] as int in WHITE
    {
      assert kept[i] == markdown[i];
      SpaceIsWhite(kept[i]);
    }
    if n > 0 {
      SpaceIsWhite(markdown[n - 1]);
    }
  }

  function Front<T>(s: seq<T>): seq<T>
    requires s != []
  {
    s[..|s| - 1]
  }

  /** One round of the loop: the first of its branches that has something to cut. */
  function Cut(p: Packet): Option<Packet> {
    if p.matchingChunks != [] then Some(p.(matchingChunks := Front(p.matchingChunks)))
    else if p.repoSymbols != [] then Some(p.(repoSymbols := Front(p.repoSymbols)))
    else if !AllEmpty(p.pathChunks) then Some(p.(pathChunks := PopNested(p.pathChunks)))
    else if !AllEmpty(p.nodeChunks) then Some(p.(nodeChunks := PopNested(p.nodeChunks)))
    else if !AllEmpty(p.nodeFileChunks) then Some(p.(nodeFileChunks := PopNested(p.nodeFileChunks)))
    else if !AllEmpty(p.pathSymbols) then Some(p.(pathSymbols := PopNested(p.pathSymbols)))
    else if p.recentEvents != [] then Some(p.(recentEvents := Front(p.recentEvents)))
    else if p.recentFiles != [] then Some(p.(recentFiles := Front(p.recentFiles)))
    else if p.activeRuns != [] then Some(p.(activeRuns := Front(p.activeRuns)))
    else if p.notes != [] then Some(p.(notes := Front(p.notes), byNode := ByNode(Front(p.notes))))
    else if p.cliCommands != [] then Some(p.(cliCommands := Front(p.cliCommands)))
    else if p.mcpTools != [] then Some(p.(mcpTools := Front(p.mcpTools)))
    else if |p.markdown| > LONG_MARKDOWN then Some(p.(markdown := Shortened(p.markdown)))
    else None
  }

  /* ---- the lists of a packet in the order they are cut ---- */

  function Reversed(lists: seq<seq<Item>>): (r: seq<seq<Item>>)
    ensures |r| == |lists|
  {
    if lists == [] then [] else [lists[|lists| - 1]] + Reversed(lists[..|lists| - 1])
  }

  const SECTIONS := 12

  function Nested(p: Packet, n: nat): seq<seq<Item>> {
    match n
    case 2 => p.pathChunks
    case 3 => p.nodeChunks
    case 4 => p.nodeFileChunks
    case _ => p.pathSymbols
  }

  function Single(p: Packet, n: nat): seq<Item> {
    match n
    case 0 => p.matchingChunks
    case 1 => p.repoSymbols
    case 6 => p.recentEvents
    case 7 => p.recentFiles
    case 8 => p.activeRuns
    case 9 => p.notes
    case 10 => p.cliCommands
    case _ => p.mcpTools
  }

  /** The lists that branch `n` of the loop cuts, in the order it cuts them. */
  function SectionAt(p: Packet, n: nat): seq<seq<Item>> {
    if 2 <= n <= 5 then Reversed(Nested(p, n)) else [Single(p, n)]
  }

  function Sections(p: Packet): seq<seq<seq<Item>>> {
    seq(SECTIONS, (n: nat) => SectionAt(p, n))
  }

  function Flatten(sections: seq<seq<seq<Item>>>): seq<seq<Item>> {
    if sections == [] then [] else sections[0] + Flatten(sections[1..])
  }

  /** All trimmable lists, the ones to give up first at the front. */
  function Lists(p: Packet): seq<seq<Item>> {
    Flatten(Sections(p))
  }

  /** The first non-empty list loses its last element. */
  function PopFirst(lists: seq<seq<Item>>): seq<seq<Item>> {
    if lists == [] then []
    else if lists[0] != [] then [Front(lists[0])] + lists[1..]
    else [lists[0]] + PopFirst(lists[1..])
  }

  lemma FirstAndRest<T>(s: seq<T>, t: seq<T>)
    requires s != []
    ensures s + t == [s[0]] + (s[1..] + t) && (s + t)[0] == s[0] && (s + t)[1..] == s[1..] + t
  {
  }

  lemma {:induction false} PopFirstSkips(a: seq<seq<Item>>, b: seq<seq<Item>>)
    requires AllEmpty(a)
    ensures PopFirst(a + b) == a + PopFirst(b)
  {
    if a == [] {
      assert a + b == b;
    } else {
      FirstAndRest(a, b);
      FirstAndRest(a, PopFirst(b));
      PopFirstSkips(a[1..], b);
    }
  }

  lemma {:induction false} PopFirstHits(a: seq<seq<Item>>, b: seq<seq<Item>>)
    requires !AllEmpty(a)
    ensures PopFirst(a + b) == PopFirst(a) + b
  {
    FirstAndRest(a, b);
    if a[0] == [] {
      PopFirstHits(a[1..], b);
      FirstAndRest([a[0]] + PopFirst(a[1..]), b);
    } else {
      FirstAndRest([Front(a[0])] + a[1..], b);
    }
  }

  lemma ReversedLast(front: seq<seq<Item>>, last: seq<Item>)
    ensures Reversed(front + [last]) == [last] + Reversed(front)
  {
    assert (front + [last])[..|front|] == front;
  }

  lemma FrontAndLast<T>(s: seq<T>)
    requires s != []
    ensures s == s[..|s| - 1] + [s[|s| - 1]]
  {
  }

  lemma {:induction false} ReversedIsEmpty(lists: seq<seq<Item>>)
    ensures AllEmpty(Reversed(lists)) <==> AllEmpty(lists)
  {
    if lists != [] {
      var front, last := lists[..|lists| - 1], lists[|lists| - 1];
      ReversedIsEmpty(front);
      assert AllEmpty(lists) <==> last == [] && AllEmpty(front);
      assert AllEmpty([last] + Reversed(front)) <==> last == [] && AllEmpty(Reversed(front)) by {
        FirstIsEmpty(last, Reversed(front));
      }
    }
  }

  lemma FirstIsEmpty(first: seq<Item>, rest: seq<seq<Item>>)
    ensures AllEmpty([first] + rest) <==> first == [] && AllEmpty(rest)
  {
    var all := [first] + rest;
    assert all[0] == first && forall i | 0 <= i < |rest| :: all[i + 1] == rest[i];
  }

  lemma PopNestedLastOf(front: seq<seq<Item>>, last: seq<Item>)
    ensures PopNested(front + [last])
         == if last != [] then front + [Front(last)] else PopNested(front) + [last]
  {
    var lists := front + [last];
    assert lists[..|front|] == front;
    if last != [] {
      assert lists[|front| := Front(last)] == front + [Front(last)];
    }
  }

  /** Popping the last non-empty list is popping the first one of the reversed lists. */
  lemma {:induction false} PopNestedReversed(lists: seq<seq<Item>>)
    ensures Reversed(PopNested(lists)) == PopFirst(Reversed(lists))
    ensures AllEmpty(Reversed(lists)) <==> AllEmpty(lists)
  {
    ReversedIsEmpty(lists);
    if lists != [] {
      var front, last := lists[..|lists| - 1], lists[|lists| - 1];
      FrontAndLast(lists);
      PopNestedLastOf(front, last);
      ReversedLast(front, last);
      FirstAndRest([last], Reversed(front));
      if last != [] {
        ReversedLast(front, Front(last));
      } else {
        PopNestedReversed(front);
        ReversedLast(PopNested(front), last);
      }
    }
  }

  /* ---- what one cut does to the lists ---- */

  lemma {:induction false} PopFirstOfSections(sections: seq<seq<seq<Item>>>, i: nat)
    requires i < |sections| && !AllEmpty(sections[i])
    requires forall j | 0 <= j < i :: AllEmpty(sections[j])
    ensures PopFirst(Flatten(sections)) == Flatten(sections[i := PopFirst(sections[i])])
    ensures !AllEmpty(Flatten(sections))
  {
    var head, rest := sections[0], sections[1..];
    if i == 0 {
      PopFirstHits(head, Flatten(rest));
      assert sections[0 := PopFirst(head)][1..] == rest;
      var k :| 0 <= k < |head| && head[k] != [];
      assert Flatten(sections)[k] == head[k];
    } else {
      PopFirstSkips(head, Flatten(rest));
      PopFirstOfSections(rest, i - 1);
      assert sections[i := PopFirst(sections[i])][1..] == rest[i - 1 := PopFirst(rest[i - 1])];
      var k :| 0 <= k < |Flatten(rest)| && Flatten(rest)[k] != [];
      assert Flatten(sections)[|head| + k] == Flatten(rest)[k];
    }
  }

  lemma {:induction false} EmptySections(sections: seq<seq<seq<Item>>>)
    ensures AllEmpty(Flatten(sections)) <==> forall i | 0 <= i < |sections| :: AllEmpty(sections[i])
  {
    if sections != [] {
      var head, tail := sections[0], Flatten(sections[1..]);
      EmptySections(sections[1..]);
      assert Flatten(sections) == head + tail;
      assert forall k | 0 <= k < |tail| :: (head + tail)[|head| + k] == tail[k];
      assert forall k | 0 <= k < |head| :: (head + tail)[k] == head[k];
      assert forall i | 0 < i < |sections| :: sections[i] == sections[1..][i - 1];
    }
  }

  /** The branch that the next cut is in; `SECTIONS` when no list is left. */
  function NextSection(p: Packet): (n: nat)
    ensures n <= SECTIONS
  {
    if p.matchingChunks != [] then 0
    else if p.repoSymbols != [] then 1
    else if !AllEmpty(p.pathChunks) then 2
    else if !AllEmpty(p.nodeChunks) then 3
    else if !AllEmpty(p.nodeFileChunks) then 4
    else if !AllEmpty(p.pathSymbols) then 5
    else if p.recentEvents != [] then 6
    else if p.recentFiles != [] then 7
    else if p.activeRuns != [] then 8
    else if p.notes != [] then 9
    else if p.cliCommands != [] then 10
    else if p.mcpTools != [] then 11
    else SECTIONS
  }

  lemma OneList(list: seq<Item>)
    ensures AllEmpty([list]) <==> list == []
    ensures list != [] ==> PopFirst([list]) == [Front(list)]
  {
    assert [list][0] == list;
  }

  lemma ColumnsBefore(p: Packet, j: nat)
    requires j < SECTIONS
    ensures j < NextSection(p) ==> if 2 <= j <= 5 then AllEmpty(Nested(p, j)) else Single(p, j) == []
    ensures j == NextSection(p) ==> if 2 <= j <= 5 then !AllEmpty(Nested(p, j)) else Single(p, j) != []
  {
  }

  lemma SectionIsEmpty(p: Packet, j: nat)
    requires j < SECTIONS
    ensures j < NextSection(p) ==> AllEmpty(SectionAt(p, j))
    ensures j == NextSection(p) ==> !AllEmpty(SectionAt(p, j))
  {
    ColumnsBefore(p, j);
    if 2 <= j <= 5 {
      PopNestedReversed(Nested(p, j));
    } else {
      OneList(Single(p, j));
    }
  }

  lemma CutColumns(p: Packet, j: nat)
    requires j < SECTIONS && NextSection(p) < SECTIONS
    ensures Cut(p).Some?
    ensures 2 <= j <= 5 ==>
              Nested(Cut(p).value, j) == if j == NextSection(p) then PopNested(Nested(p, j)) else Nested(p, j)
    ensures !(2 <= j <= 5) && j == NextSection(p) ==>
              Single(p, j) != [] && Single(Cut(p).value, j) == Front(Single(p, j))
    ensures !(2 <= j <= 5) && j != NextSection(p) ==> Single(Cut(p).value, j) == Single(p, j)
  {
  }

  lemma CutInSection(p: Packet, j: nat)
    requires j < SECTIONS && NextSection(p) < SECTIONS
    ensures Cut(p).Some?
    ensures j != NextSection(p) ==> SectionAt(Cut(p).value, j) == SectionAt(p, j)
    ensures j == NextSection(p) ==> SectionAt(Cut(p).value, j) == PopFirst(SectionAt(p, j))
  {
    CutColumns(p, j);
    if 2 <= j <= 5 {
      PopNestedReversed(Nested(p, j));
    } else {
      OneList(Single(p, j));
    }
  }

  lemma CutMovesOneSection(p: Packet)
    requires NextSection(p) < SECTIONS
    ensures Cut(p).Some?
    ensures Sections(Cut(p).value) == Sections(p)[NextSection(p) := PopFirst(Sections(p)[NextSection(p)])]
  {
    CutInSection(p, 0);
    var before, after := Sections(p), Sections(Cut(p).value);
    forall j | 0 <= j < SECTIONS
      ensures after[j] == if j == NextSection(p) then PopFirst(before[j]) else before[j]
    {
      assert after[j] == SectionAt(Cut(p).value, j);
      assert before[j] == SectionAt(p, j);
      CutInSection(p, j);
    }
  }

  lemma SectionsDecide(p: Packet)
    ensures AllEmpty(Lists(p)) <==> NextSection(p) == SECTIONS
    ensures NextSection(p) < SECTIONS ==> Lists(Cut(p).value) == PopFirst(Lists(p))
  {
    var n, sections := NextSection(p), Sections(p);
    EmptySections(sections);
    forall j | 0 <= j < SECTIONS
      ensures j < n ==> AllEmpty(sections[j])
      ensures j == n ==> !AllEmpty(sections[j])
    {
      assert sections[j] == SectionAt(p, j);
      SectionIsEmpty(p, j);
    }
    if n < SECTIONS {
      CutMovesOneSection(p);
      PopFirstOfSections(sections, n);
    }
  }

  lemma OnlyListsCount(p: Packet, q: Packet)
    requires q == p.(markdown := q.markdown, budget := q.budget)
    ensures Lists(q) == Lists(p)
  {
    assert Sections(q) == Sections(p) by {
      forall j | 0 <= j < SECTIONS
        ensures Sections(q)[j] == Sections(p)[j]
      {
        assert Sections(q)[j] == SectionAt(q, j);
        assert Sections(p)[j] == SectionAt(p, j);
      }
    }
  }

  /**
   A cut pops the first non-empty list in cutting order, and touches nothing but `by_node` besides; with no
   list left it shortens the markdown, which can happen once; with nothing left to cut there is no cut.
   */
  lemma CutPopsFirst(p: Packet)
    ensures !AllEmpty(Lists(p)) ==>
              && Cut(p).Some?
              && Lists(Cut(p).value) == PopFirst(Lists(p))
              && Cut(p).value.markdown == p.markdown
    ensures AllEmpty(Lists(p)) && |p.markdown| > LONG_MARKDOWN ==>
              && Cut(p) == Some(p.(markdown := Shortened(p.markdown)))
              && |Shortened(p.markdown)| <= LONG_MARKDOWN
              && Lists(Cut(p).value) == Lists(p)
    ensures AllEmpty(Lists(p)) && |p.markdown| <= LONG_MARKDOWN ==> Cut(p).None?
  {
    SectionsDecide(p);
    if NextSection(p) == SECTIONS && Cut(p).Some? {
      OnlyListsCount(p, Cut(p).value);
    }
  }

  lemma CutKeepsIndex(p: Packet)
    requires Cut(p).Some?
    ensures p.byNode == ByNode(p.notes) ==> Cut(p).value.byNode == ByNode(Cut(p).value.notes)
    ensures Cut(p).value.budget == p.budget
  {
  }

  /* ---- termination ---- */

  function Total(lists: seq<seq<Item>>): nat {
    if lists == [] then 0 else |lists[0]| + Total(lists[1..])
  }

  /** List elements left, plus one while the markdown is long. */
  function Measure(p: Packet): nat {
    Total(Lists(p)) + if |p.markdown| > LONG_MARKDOWN then 1 else 0
  }

  lemma {:induction false} PopFirstShrinks(lists: seq<seq<Item>>)
    requires !AllEmpty(lists)
    ensures Total(PopFirst(lists)) == Total(lists) - 1
  {
    if lists[0] != [] {
      assert PopFirst(lists)[1..] == lists[1..];
    } else {
      assert PopFirst(lists)[1..] == PopFirst(lists[1..]);
      PopFirstShrinks(lists[1..]);
    }
  }

  lemma CutShrinks(p: Packet)
    requires Cut(p).Some?
    ensures Measure(Cut(p).value) == Measure(p) - 1
  {
    CutPopsFirst(p);
    if !AllEmpty(Lists(p)) {
      PopFirstShrinks(Lists(p));
    }
  }

  /* ---- trimming ---- */

  function Tokens(characters: nat): nat {
    (characters + 3) / 4
  }

  /** Cutting until the packet fits or nothing is left to cut. */
  function Trim(p: Packet, budget: int, size: Packet -> nat): Packet
    decreases Measure(p)
  {
    if Tokens(size(p)) <= budget || Cut(p).None? then p
    else
      CutShrinks(p);
      Trim(Cut(p).value, budget, size)
  }

  /** `after` is `before` cut in order up to list `i`: the earlier lists are gone, the later ones whole. */
  predicate CutTo(before: seq<seq<Item>>, after: seq<seq<Item>>, i: nat) {
    && |after| == |before|
    && i < |before|
    && (forall j | 0 <= j < i :: after[j] == [])
    && after[i] <= before[i]
    && (forall j | i < j < |before| :: after[j] == before[j])
  }

  ghost predicate CutInOrder(before: seq<seq<Item>>, after: seq<seq<Item>>) {
    exists i: nat :: CutTo(before, after, i)
  }

  lemma {:induction false} PopFirstIsInOrder(lists: seq<seq<Item>>) returns (i: nat)
    requires !AllEmpty(lists)
    ensures CutTo(lists, PopFirst(lists), i)
  {
    if lists[0] != [] {
      i := 0;
    } else {
      i := PopFirstIsInOrder(lists[1..]);
      i := i + 1;
    }
  }

  lemma CutInOrderIsTransitive(a: seq<seq<Item>>, b: seq<seq<Item>>, c: seq<seq<Item>>)
    requires CutInOrder(a, b) && CutInOrder(b, c)
    ensures CutInOrder(a, c)
  {
    var i: nat :| CutTo(a, b, i);
    var j: nat :| CutTo(b, c, j);
    assert CutTo(a, c, if i < j then j else i);
  }

  /** Trimming cuts in order: a list is touched only once every list before it is empty, and ends as a prefix. */
  lemma {:induction false} TrimCutsInOrder(p: Packet, budget: int, size: Packet -> nat)
    ensures CutInOrder(Lists(p), Lists(Trim(p, budget, size)))
    decreases Measure(p)
  {
    assert CutTo(Lists(p), Lists(p), 0);
    if Tokens(size(p)) > budget && Cut(p).Some? {
      var q := Cut(p).value;
      CutShrinks(p);
      CutPopsFirst(p);
      TrimCutsInOrder(q, budget, size);
      if !AllEmpty(Lists(p)) {
        var i := PopFirstIsInOrder(Lists(p));
        CutInOrderIsTransitive(Lists(p), Lists(q), Lists(Trim(q, budget, size)));
      }
    }
  }

  /** The markdown is shortened at most once, and only when every list is empty; the notes keep their index. */
  lemma {:induction false} TrimSparesMarkdown(p: Packet, budget: int, size: Packet -> nat)
    ensures var t := Trim(p, budget, size);
            && (t.markdown == p.markdown
                || (|p.markdown| > 220 && t.markdown == Shortened(p.markdown) && AllEmpty(Lists(t))))
            && (p.byNode == ByNode(p.notes) ==> t.byNode == ByNode(t.notes))
            && t.budget == p.budget
    decreases Measure(p)
  {
    if Tokens(size(p)) > budget && Cut(p).Some? {
      CutShrinks(p);
      CutPopsFirst(p);
      CutKeepsIndex(p);
      TrimSparesMarkdown(Cut(p).value, budget, size);
      if AllEmpty(Lists(p)) {
        CutPopsFirst(Cut(p).value);
      }
    }
  }

  /** What comes out fits, or has no list element and no long markdown left. */
  lemma {:induction false} TrimFitsOrExhausts(p: Packet, budget: int, size: Packet -> nat)
    ensures var t := Trim(p, budget, size);
            size(t) <= 4 * budget || (AllEmpty(Lists(t)) && |t.markdown| <= 220)
    decreases Measure(p)
  {
    CutPopsFirst(p);
    if Tokens(size(p)) > budget && Cut(p).Some? {
      CutShrinks(p);
      TrimFitsOrExhausts(Cut(p).value, budget, size);
    }
  }

  /** Nothing is cut needlessly: with one cut less the packet would not fit. */
  lemma {:induction false} LastCutWasNeeded(p: Packet, budget: int, size: Packet -> nat) returns (q: Packet)
    requires Trim(p, budget, size) != p
    ensures size(q) > 4 * budget && Cut(q) == Some(Trim(p, budget, size))
    decreases Measure(p)
  {
    CutShrinks(p);
    q := p;
    if Trim(Cut(p).value, budget, size) != Cut(p).value {
      q := LastCutWasNeeded(Cut(p).value, budget, size);
    }
  }

  /* ---- the loop ---- */

  function Refreshed(p: Packet, budget: int, bare: Packet -> nat): Packet {
    var estimated := Tokens(bare(p));
    p.(budget := Budget(budget, estimated, p.budget.truncated || (budget > 0 && estimated > budget)))
  }

  method PopNestedLast(lists: seq<seq<Item>>) returns (rest: seq<seq<Item>>, popped: bool)
    ensures popped <==> !AllEmpty(lists)
    ensures rest == PopNested(lists)
  {
    rest := lists;
    assert lists[..|lists|] == lists;
    for i := |lists| downto 0
      invariant forall j | i <= j < |lists| :: lists[j] == []
      invariant PopNested(lists) == PopNested(lists[..i]) + lists[i..]
    {
      if lists[i] != [] {
        assert lists[..i + 1][i := Front(lists[i])] + lists[i + 1..] == lists[i := Front(lists[i])];
        return lists[i := Front(lists[i])], true;
      }
      assert lists[..i + 1][..i] == lists[..i];
      assert [lists[i]] + lists[i + 1..] == lists[i..];
    }
    return lists, false;
  }

  /** The body of the loop: try each section in turn. */
  method CutOne(p: Packet) returns (q: Packet, cut: bool)
    ensures cut <==> Cut(p).Some?
    ensures q == if Cut(p).Some? then Cut(p).value else p
  {
    if p.matchingChunks != [] {
      return p.(matchingChunks := Front(p.matchingChunks)), true;
    }
    if p.repoSymbols != [] {
      return p.(repoSymbols := Front(p.repoSymbols)), true;
    }
    var rest, popped := PopNestedLast(p.pathChunks);
    if popped {
      return p.(pathChunks := rest), true;
    }
    rest, popped := PopNestedLast(p.nodeChunks);
    if popped {
      return p.(nodeChunks := rest), true;
    }
    rest, popped := PopNestedLast(p.nodeFileChunks);
    if popped {
      return p.(nodeFileChunks := rest), true;
    }
    rest, popped := PopNestedLast(p.pathSymbols);
    if popped {
      return p.(pathSymbols := rest), true;
    }
    if p.recentEvents != [] {
      return p.(recentEvents := Front(p.recentEvents)), true;
    }
    if p.recentFiles != [] {
      return p.(recentFiles := Front(p.recentFiles)), true;
    }
    if p.activeRuns != [] {
      return p.(activeRuns := Front(p.activeRuns)), true;
    }
    if p.notes != [] {
      var notes := Front(p.notes);
      return p.(notes := notes, byNode := ByNode(notes)), true;
    }
    if p.cliCommands != [] {
      return p.(cliCommands := Front(p.cliCommands)), true;
    }
    if p.mcpTools != [] {
      return p.(mcpTools := Front(p.mcpTools)), true;
    }
    if |p.markdown| > LONG_MARKDOWN {
      return p.(markdown := Shortened(p.markdown)), true;
    }
    return p, false;
  }

  /**
   `_trim_to_budget`: a budget of zero or less trims nothing; otherwise the packet is trimmed, and `truncated`
   is set when something was cut, when it was set before, or when the packet is still too large.
   */
  method TrimToBudget(packet: Packet, budget: int, size: Packet -> nat, bare: Packet -> nat) returns (r: Packet)
    ensures budget <= 0 ==> r == Refreshed(packet, budget, bare)
    ensures budget > 0 ==>
              var t := Trim(packet, budget, size);
              r == t.(budget := Budget(budget, Tokens(bare(t)),
                                       packet.budget.truncated || t != packet || Tokens(bare(t)) > budget))
  {
    var p := packet;
    if budget <= 0 {
      return Refreshed(p, budget, bare);
    }
    var wasTruncated := false;
    while Tokens(size(p)) > budget
      invariant Trim(p, budget, size) == Trim(packet, budget, size)
      invariant p.budget == packet.budget
      invariant Measure(p) <= Measure(packet)
      invariant wasTruncated <==> Measure(p) < Measure(packet)
      invariant !wasTruncated ==> p == packet
      decreases Measure(p)
    {
      var q, cut := CutOne(p);
      if !cut {
        break;
      }
      CutShrinks(p);
      CutKeepsIndex(p);
      p, wasTruncated := q, true;
    }
    r := Refreshed(p, budget, bare);
    if wasTruncated {
      r := r.(budget := r.budget.(truncated := true));
    }
  }

  /**
   The packet is trimmed, its markdown written anew, and trimmed again. The lists still end up cut in order,
   whatever the new markdown says.
   */
  lemma {:induction false} TwoTrimsCutInOrder(packet: Packet, budget: int, size: Packet -> nat, rendered: Packet)
    requires rendered == Trim(packet, budget, size).(markdown := rendered.markdown, budget := rendered.budget)
    ensures CutInOrder(Lists(packet), Lists(Trim(rendered, budget, size)))
  {
    TrimCutsInOrder(packet, budget, size);
    TrimCutsInOrder(rendered, budget, size);
    OnlyListsCount(Trim(packet, budget, size), rendered);
    CutInOrderIsTransitive(Lists(packet), Lists(rendered), Lists(Trim(rendered, budget, size)));
  }
}
