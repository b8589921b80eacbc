/** Packing the pieces of all blocks onto pages: which page a piece goes to is decided exactly. */
module Packing {
  import opened Pagination

  const PAGE_UNITS := 40

  function PageUnits(page: seq<Block>): nat { if page == [] then 0 else Units(page[0]) + PageUnits(page[1..]) }

  lemma {:induction false} PageUnitsAppend(page: seq<Block>, b: Block)
    ensures PageUnits(page + [b]) == PageUnits(page) + Units(b)
  {
    hide Units;
    if page == [] {
      assert [b][1..] == [];
    } else {
      PageUnitsAppend(page[1..], b);
      assert (page + [b])[1..] == page[1..] + [b];
    }
  }

  /** Why a page ends before this block: it does not fit, or it is a heading with too little room below. */
  predicate Broke(page: seq<Block>, b: Block, capacity: nat) {
    PageUnits(page) + Units(b) + (if b.kind == Heading then 3 else 0) > capacity
  }

  /** No page ends early: every page but the last was full for the block that follows it. */
  predicate Tight(pages: seq<seq<Block>>, current: seq<Block>, capacity: nat) {
    && (forall i | 0 < i < |pages| :: pages[i] != [] && Broke(pages[i - 1], pages[i][0], capacity))
    && (if current == [] then pages == [] else pages != [] ==> Broke(pages[|pages| - 1], current[0], capacity))
  }

  lemma Breaks(page: seq<Block>, b: Block, used: nat, units: nat, capacity: nat)
    requires used == PageUnits(page) && units == Units(b)
    ensures Broke(page, b, capacity) <==> (b.kind == Heading && capacity - used < units + 3) || used + units > capacity
    ensures page != [] ==> used > 0
  {
    if page != [] { UnitsPositive(page[0]); }
  }

  lemma UnitsPositive(b: Block)
    ensures Units(b) > 0
  {
  }

  lemma TightAppend(pages: seq<seq<Block>>, current: seq<Block>, b: Block, capacity: nat)
    requires Tight(pages, current, capacity)
    ensures current != [] ==> Tight(pages, current + [b], capacity)
    ensures current == [] ==> Tight(pages, [b], capacity)
    ensures current != [] && Broke(current, b, capacity) ==> Tight(pages + [current], [b], capacity)
  {
    hide Broke;
  }

  lemma FitsAt(pieces: seq<Block>, i: nat, capacity: nat)
    requires AllFit(pieces, capacity) && i < |pieces|
    ensures Units(pieces[i]) <= capacity
  {
  }

  lemma PageUnitsEmpty(page: seq<Block>)
    ensures page == [] ==> PageUnits(page) == 0
  {
  }

  /** The closed pages and the current one hold exactly these blocks, in this order. */
  ghost predicate Flow(pages: seq<seq<Block>>, current: seq<Block>, all: seq<Block>) { Flatten(pages) + current == all }

  lemma FlowAppend(pages: seq<seq<Block>>, current: seq<Block>, all: seq<Block>, b: Block)
    requires Flow(pages, current, all)
    ensures Flow(pages, current + [b], all + [b])
  {
    assert Flatten(pages) + (current + [b]) == (Flatten(pages) + current) + [b];
  }

  lemma FlowClosed(pages: seq<seq<Block>>, current: seq<Block>, all: seq<Block>)
    requires Flow(pages, current, all)
    ensures Flow(if current == [] then pages else pages + [current], [], all)
    ensures current == [] ==> Flatten(pages) == all
  {
    FlattenAppend(pages, current);
    assert Flatten(pages) + [] == Flatten(pages);
    assert Flatten(pages + [current]) + [] == Flatten(pages + [current]);
  }

  /** No block on a page should have started the next one. */
  ghost predicate Snug(page: seq<Block>, capacity: nat) {
    forall k | 0 < k < |page| :: !Broke(page[..k], page[k], capacity)
  }

  lemma SnugAppend(page: seq<Block>, b: Block, capacity: nat)
    requires Snug(page, capacity) && (page != [] ==> !Broke(page, b, capacity))
    ensures Snug(page + [b], capacity)
  {
    hide Broke;
    var more := page + [b];
    forall k | 0 < k < |more| ensures !Broke(more[..k], more[k], capacity) {
      if k < |page| {
        assert more[..k] == page[..k];
      } else {
        assert more[..k] == page;
      }
    }
  }

  /** Pages so far: none is empty, none should have ended earlier, and none is over the budget when every piece is
      within it. */
  ghost predicate Pages(pages: seq<seq<Block>>, capacity: nat, fits: bool) {
    forall i | 0 <= i < |pages| ::
      pages[i] != [] && Snug(pages[i], capacity) && (fits ==> PageUnits(pages[i]) <= capacity)
  }

  /** Packs the pieces of all blocks in order. `split` says which pieces each block became. */
  method Paginate(blocks: seq<Block>, capacity: nat) returns (pages: seq<seq<Block>>, ghost split: seq<seq<Block>>)
    requires capacity >= 3
    ensures |split| == |blocks| && forall i | 0 <= i < |blocks| :: Keeps(blocks[i], split[i])
    ensures Flatten(pages) == Flatten(split)
    ensures forall i | 0 <= i < |blocks| && Units(blocks[i]) <= capacity :: split[i] == [blocks[i]]
    ensures Packed(pages, capacity)
    ensures Pages(pages, capacity, forall i | 0 <= i < |blocks| :: Regular(blocks[i]) && capacity >= Needed(blocks[i]))
  {
    hide Units, Regular, Needed, Keeps, Pages, PageUnits, Snug, Broke, Tight, EndsRightly, Packed, Flow, Flatten,
      AllFit;
    pages, split := [], [];
    var current: seq<Block> := [];
    var used := 0;
    ghost var fits := forall i | 0 <= i < |blocks| :: Regular(blocks[i]) && capacity >= Needed(blocks[i]);
    NoPages(capacity, fits);
    var i := 0;
    while i < |blocks|
      invariant 0 <= i <= |blocks| && |split| == i
      invariant forall j | 0 <= j < i ::
        Keeps(blocks[j], split[j]) && (Units(blocks[j]) <= capacity ==> split[j] == [blocks[j]])
      invariant used == PageUnits(current) && (fits ==> used <= capacity) && Snug(current, capacity)
      invariant Pages(pages, capacity, fits) && Flow(pages, current, Flatten(split))
      invariant Tight(pages, current, capacity)
    {
      var pieces := SplitBlock(blocks[i], capacity);
      assert fits ==> AllFit(pieces, capacity);
      pages, current, used := PackPieces(pages, current, used, pieces, capacity, fits, Flatten(split));
      FlattenAppend(split, pieces);
      split := split + [pieces];
      i := i + 1;
    }
    TightDone(pages, current, capacity);
    pages, current, used := FlushPage(pages, current, used, capacity, fits, Flatten(split));
    FlowClosed(pages, current, Flatten(split));
    PagesSnug(pages, capacity, fits);
  }

  /** Pages that end exactly where they must. */
  ghost predicate Packed(pages: seq<seq<Block>>, capacity: nat) {
    && (forall i | 0 <= i < |pages| :: pages[i] != [] && Snug(pages[i], capacity))
    && (forall i | 0 < i < |pages| :: Broke(pages[i - 1], pages[i][0], capacity))
  }

  predicate EndsRightly(pages: seq<seq<Block>>, capacity: nat) {
    forall i | 0 < i < |pages| :: pages[i] != [] && Broke(pages[i - 1], pages[i][0], capacity)
  }

  lemma TightDone(pages: seq<seq<Block>>, current: seq<Block>, capacity: nat)
    requires Tight(pages, current, capacity)
    ensures EndsRightly(if current == [] then pages else pages + [current], capacity)
  {
    hide Broke;
  }

  lemma PagesSnug(pages: seq<seq<Block>>, capacity: nat, fits: bool)
    requires Pages(pages, capacity, fits) && EndsRightly(pages, capacity)
    ensures Packed(pages, capacity)
  {
    hide Broke, Snug;
  }

  lemma NoPages(capacity: nat, fits: bool)
    ensures Tight([], [], capacity)
    ensures Pages([], capacity, fits) && PageUnits([]) == 0 && Snug([], capacity) && Flow([], [], Flatten<Block>([]))
  {
  }

  /** Closes the current page, unless it is empty. */
  method FlushPage(pages: seq<seq<Block>>, current: seq<Block>, used: nat, capacity: nat, ghost fits: bool,
                   ghost all: seq<Block>)
    returns (more: seq<seq<Block>>, rest: seq<Block>, left: nat)
    requires Pages(pages, capacity, fits) && used == PageUnits(current) && (fits ==> used <= capacity)
      && Snug(current, capacity)
    requires Flow(pages, current, all)
    ensures Pages(more, capacity, fits) && rest == [] && left == 0 == PageUnits(rest) && Snug(rest, capacity)
    ensures Flow(more, rest, all)
    ensures more == if current == [] then pages else pages + [current]
  {
    hide PageUnits, Units, Snug, Flow, Flatten;
    more, rest, left := pages, [], 0;
    NoPages(capacity, fits);
    FlowClosed(pages, current, all);
    if |current| > 0 {
      more := pages + [current];
    }
  }

  method PackPieces(pages0: seq<seq<Block>>, current0: seq<Block>, used0: nat, pieces: seq<Block>, capacity: nat,
                    ghost fits: bool, ghost start: seq<Block>)
    returns (pages: seq<seq<Block>>, current: seq<Block>, used: nat)
    requires Snug(current0, capacity) && Tight(pages0, current0, capacity) && Flow(pages0, current0, start)
    requires Pages(pages0, capacity, fits) && used0 == PageUnits(current0)
      && (fits ==> used0 <= capacity && AllFit(pieces, capacity))
    ensures Pages(pages, capacity, fits) && used == PageUnits(current) && (fits ==> used <= capacity)
      && Snug(current, capacity)
    ensures Flow(pages, current, start + pieces) && Tight(pages, current, capacity)
  {
    hide PageUnits, Units, Pages, Snug, Tight, Broke, Flow, Flatten, AllFit;
    pages, current, used := pages0, current0, used0;
    assert start + pieces[..0] == start;
    var i := 0;
    while i < |pieces|
      invariant 0 <= i <= |pieces|
      invariant Pages(pages, capacity, fits) && used == PageUnits(current) && (fits ==> used <= capacity)
        && Snug(current, capacity)
      invariant Flow(pages, current, start + pieces[..i]) && Tight(pages, current, capacity)
    {
      var piece := pieces[i];
      var units := Units(piece);
      if fits { FitsAt(pieces, i, capacity); }
      PageUnitsEmpty(current);
      Breaks(current, piece, used, units, capacity);
      TightAppend(pages, current, piece, capacity);
      if piece.kind == Heading && capacity - used < units + 3 {
        pages, current, used := FlushPage(pages, current, used, capacity, fits, start + pieces[..i]);
      }
      if used > 0 && used + units > capacity {
        pages, current, used := FlushPage(pages, current, used, capacity, fits, start + pieces[..i]);
      }
      PageUnitsAppend(current, piece);
      PageUnitsEmpty(current);
      assert [] + [piece] == [piece];
      SnugAppend(current, piece, capacity);
      assert pieces[..i + 1] == pieces[..i] + [piece];
      FlowAppend(pages, current, start + pieces[..i], piece);
      assert start + pieces[..i] + [piece] == start + pieces[..i + 1];
      current, used := current + [piece], used + units;
      i := i + 1;
    }
    assert pieces[..i] == pieces;
  }

  // ---------------------------------------------------------------- where a page ends

  /** The piece that follows place `k` of page `i`. */
  function Following(pages: seq<seq<Block>>, i: nat, k: nat): Block
    requires i < |pages| && k < |pages[i]| && (k + 1 < |pages[i]| || (i + 1 < |pages| && pages[i + 1] != []))
  {
    if k + 1 < |pages[i]| then pages[i][k + 1] else pages[i + 1][0]
  }

  /** A page ends with a piece exactly when the piece that follows does not fit below it, a heading with three units to
      spare. */
  lemma EndsExactly(pages: seq<seq<Block>>, capacity: nat, i: nat, k: nat)
    requires Packed(pages, capacity) && i < |pages| && k < |pages[i]| && (k + 1 < |pages[i]| || i + 1 < |pages|)
    ensures k + 1 == |pages[i]| <==> Broke(pages[i][..k + 1], Following(pages, i, k), capacity)
  {
    hide Broke;
    var page := pages[i];
    if k + 1 < |page| {
      assert !Broke(page[..k + 1], page[k + 1], capacity);
    } else {
      assert page[..k + 1] == page;
    }
  }

  /** Exactly when a heading is left alone at the end of its page: when the text that follows needs more than what is
      left of the page. */
  lemma HeadingEndsExactly(pages: seq<seq<Block>>, capacity: nat, i: nat, k: nat)
    requires Packed(pages, capacity) && i < |pages| && k < |pages[i]| && (k + 1 < |pages[i]| || i + 1 < |pages|)
    requires pages[i][k].kind == Heading && Following(pages, i, k).kind != Heading
    ensures k + 1 == |pages[i]| <==> Units(Following(pages, i, k)) > capacity - PageUnits(pages[i][..k + 1])
  {
    EndsExactly(pages, capacity, i, k);
  }

  /** What the paginator's comment can rely on: three units are left below a heading that is not the first piece of its
      page. */
  lemma HeadingSpares(pages: seq<seq<Block>>, capacity: nat, i: nat, k: nat)
    requires Packed(pages, capacity) && i < |pages| && 0 < k < |pages[i]| && pages[i][k].kind == Heading
    ensures PageUnits(pages[i][..k + 1]) + 3 <= capacity
  {
    var page := pages[i];
    assert !Broke(page[..k], page[k], capacity);
    PageUnitsAppend(page[..k], page[k]);
    assert page[..k + 1] == page[..k] + [page[k]];
  }

  /** There is only one way to pack a list of pieces. */
  lemma {:induction false} PackedUnique(a: seq<seq<Block>>, b: seq<seq<Block>>, capacity: nat)
    requires Packed(a, capacity) && Packed(b, capacity) && Flatten(a) == Flatten(b)
    ensures a == b
  {
    hide Broke, Snug;
    if a == [] || b == [] {
      if a != [] { SomethingPacked(a, capacity); }
      if b != [] { SomethingPacked(b, capacity); }
    } else {
      SameFirst(a, b, capacity);
      assert Flatten(a)[|a[0]|..] == Flatten(a[1..]) && Flatten(b)[|b[0]|..] == Flatten(b[1..]);
      assert Flatten(a)[..|a[0]|] == a[0] && Flatten(b)[..|b[0]|] == b[0];
      PackedRest(a, capacity);
      PackedRest(b, capacity);
      PackedUnique(a[1..], b[1..], capacity);
      assert a == [a[0]] + a[1..] && b == [b[0]] + b[1..];
    }
  }

  lemma SomethingPacked(pages: seq<seq<Block>>, capacity: nat)
    requires Packed(pages, capacity) && pages != []
    ensures Flatten(pages) != []
  {
    assert pages[0] != [];
  }

  lemma PackedRest(pages: seq<seq<Block>>, capacity: nat)
    requires Packed(pages, capacity) && pages != []
    ensures Packed(pages[1..], capacity)
  {
    hide Broke, Snug;
    assert forall i | 1 <= i < |pages| :: pages[1..][i - 1] == pages[i];
  }

  /** Where the first page of a packing ends can be read off the list of pieces. */
  lemma FirstEnds(pages: seq<seq<Block>>, capacity: nat)
    requires Packed(pages, capacity) && pages != []
    ensures 0 < |pages[0]| <= |Flatten(pages)|
    ensures forall m | 0 < m <= |pages[0]| && m < |Flatten(pages)| ::
      m == |pages[0]| <==> Broke(Flatten(pages)[..m], Flatten(pages)[m], capacity)
  {
    hide Broke;
    var all := Flatten(pages);
    assert pages[0] != [];
    forall m | 0 < m <= |pages[0]| && m < |all| ensures m == |pages[0]| <==> Broke(all[..m], all[m], capacity) {
      assert all[..m] == pages[0][..m];
      if m == |pages[0]| { SecondPage(pages, capacity); }
      EndsExactly(pages, capacity, 0, m - 1);
    }
  }

  lemma SecondPage(pages: seq<seq<Block>>, capacity: nat)
    requires Packed(pages, capacity) && pages != [] && |pages[0]| < |Flatten(pages)|
    ensures |pages| > 1 && pages[1] != [] && Flatten(pages)[|pages[0]|] == pages[1][0]
  {
    hide Broke, Snug;
    assert Flatten(pages) == pages[0] + Flatten(pages[1..]);
  }

  lemma SameFirst(a: seq<seq<Block>>, b: seq<seq<Block>>, capacity: nat)
    requires Packed(a, capacity) && Packed(b, capacity) && Flatten(a) == Flatten(b) && a != [] && b != []
    ensures |a[0]| == |b[0]|
  {
    hide Broke, Packed, Flatten;
    FirstEnds(a, capacity);
    FirstEnds(b, capacity);
    var all, m := Flatten(a), if |a[0]| < |b[0]| then |a[0]| else |b[0]|;
    assert m < |all| ==> (m == |a[0]| <==> Broke(all[..m], all[m], capacity));
    assert m < |all| ==> (m == |b[0]| <==> Broke(all[..m], all[m], capacity));
  }

  // ---------------------------------------------------------------- a heading left alone

  function Sample(kind: Kind, length: nat): Block { Block(kind, seq(length, _ => 'x'), "", "", [], []) }

  lemma SampleUnits(kind: Kind, length: nat)
    requires kind == Paragraph || kind == Heading
    ensures Units(Sample(kind, length))
         == if kind == Heading then Max(1, Ceil(length, 22)) * 2 + 1 else Max(1, Ceil(length, 32)) + 1
  {
    hide Ceil;
    var text := Sample(kind, length).text;
    LinesOfOne(text);
    assert |text| == length;
    assert [text][1..] == [];
    assert LinesUnits([text], CharsPerUnit(kind))
        == LineUnits(text, CharsPerUnit(kind)) + LinesUnits([text][1..], CharsPerUnit(kind));
  }

  lemma OrphanUnits(p: Block, h: Block, q: Block)
    requires p == Sample(Paragraph, 33 * 32) && h == Sample(Heading, 1) && q == Sample(Paragraph, 3 * 32)
    ensures Units(p) == 34 && Units(h) == 3 && Units(q) == 4 && h.kind == Heading && q.kind == Paragraph
  {
    SampleUnits(Paragraph, 33 * 32);
    SampleUnits(Heading, 1);
    SampleUnits(Paragraph, 3 * 32);
    hide Units;
  }

  /** A paragraph of 34 units, a heading of 3 and a paragraph of 4 on pages of 40: the page ends with the heading. */
  method OrphanedHeading() returns (pages: seq<seq<Block>>)
    ensures var p, h, q := Sample(Paragraph, 33 * 32), Sample(Heading, 1), Sample(Paragraph, 3 * 32);
      Units(p) == 34 && Units(h) == 3 && Units(q) == 4 && pages == [[p, h], [q]]
  {
    var p, h, q := Sample(Paragraph, 33 * 32), Sample(Heading, 1), Sample(Paragraph, 3 * 32);
    hide Units, Sample, Keeps, Pages, Packed, Flatten, Broke, Regular, Needed;
    OrphanUnits(p, h, q);
    ghost var split;
    pages, split := Paginate([p, h, q], PAGE_UNITS);
    assert split[0] == [p] && split[1] == [h] && split[2] == [q];
    OrphanPages(p, h, q, pages, split);
  }

  lemma OrphanPages(p: Block, h: Block, q: Block, pages: seq<seq<Block>>, split: seq<seq<Block>>)
    requires Units(p) == 34 && Units(h) == 3 && Units(q) == 4 && h.kind == Heading && q.kind != Heading
    requires |split| == 3 && split[0] == [p] && split[1] == [h] && split[2] == [q]
    requires Packed(pages, PAGE_UNITS) && Flatten(pages) == Flatten(split)
    ensures pages == [[p, h], [q]]
  {
    hide Units, Packed, Flatten;
    assert split == [[p], [h], [q]];
    ThreePieces(p, h, q);
    OrphanPacked(p, h, q, PAGE_UNITS);
    PackedUnique(pages, [[p, h], [q]], PAGE_UNITS);
  }

  lemma ThreePieces(p: Block, h: Block, q: Block)
    ensures Flatten([[p], [h], [q]]) == [p, h, q] == Flatten([[p, h], [q]])
  {
    FlattenAppend<Block>([], [p]);
    FlattenAppend([[p]], [h]);
    FlattenAppend([[p], [h]], [q]);
    FlattenAppend<Block>([], [p, h]);
    FlattenAppend([[p, h]], [q]);
    assert [] + [[p]] == [[p]] && [[p]] + [[h]] == [[p], [h]] && [[p], [h]] + [[q]] == [[p], [h], [q]];
    assert [] + [[p, h]] == [[p, h]] && [[p, h]] + [[q]] == [[p, h], [q]];
  }

  lemma OrphanPacked(p: Block, h: Block, q: Block, capacity: nat)
    requires h.kind == Heading && q.kind != Heading
    requires Units(p) + Units(h) + 3 <= capacity < Units(p) + Units(h) + Units(q)
    ensures Packed([[p, h], [q]], capacity)
  {
    hide Units;
    PageUnitsAppend([], p);
    PageUnitsAppend([p], h);
    assert [] + [p] == [p] && [p] + [h] == [p, h] && [p, h][..1] == [p];
  }
}
