/** The scrolling transcript viewport of the terminal client (crates/morons-cli/src/app/viewport.rs). */
module Viewport {
  import opened Basics

  const U16_MAX := 0xFFFF

  datatype BlockKey = Entry(messageId: nat, part: nat) | Transient(runId: nat, part: nat)

  datatype Metric = Metric(key: BlockKey, start: nat, height: nat)

  /** One screen row of the transcript: a block and a row inside it. */
  datatype Row = Row(key: BlockKey, row: nat)

  type Measurement = seq<(BlockKey, nat)>

  // ----- the simple form: the transcript as one list of rows -----

  function BlockRows(block: Metric): (r: seq<Row>)
    ensures |r| == block.height
  {
    seq(block.height, i requires 0 <= i => Row(block.key, i))
  }

  function Rows(blocks: seq<Metric>): seq<Row>
  {
    if blocks == [] then [] else BlockRows(blocks[0]) + Rows(blocks[1..])
  }

  /** The exact number of rows above block `n`. */
  function Above(blocks: seq<Metric>, n: nat): nat
    requires n <= |blocks|
  {
    |Rows(blocks[..n])|
  }

  lemma {:induction false} RowsConcat(a: seq<Metric>, b: seq<Metric>)
    ensures Rows(a + b) == Rows(a) + Rows(b)
  {
    if a == [] {
      assert a + b == b;
    } else {
      assert (a + b)[1..] == a[1..] + b;
      RowsConcat(a[1..], b);
    }
  }

  lemma {:induction false} AboveStep(blocks: seq<Metric>, n: nat)
    requires n < |blocks|
    ensures Above(blocks, n + 1) == Above(blocks, n) + blocks[n].height
  {
    assert blocks[..n + 1] == blocks[..n] + [blocks[n]];
    RowsConcat(blocks[..n], [blocks[n]]);
  }

  lemma {:induction false} AboveMonotone(blocks: seq<Metric>, m: nat, n: nat)
    requires m <= n <= |blocks|
    ensures Above(blocks, m) <= Above(blocks, n)
    decreases n - m
  {
    if m < n {
      AboveStep(blocks, m);
      AboveMonotone(blocks, m + 1, n);
    }
  }

  lemma {:induction false} RowsSplit(blocks: seq<Metric>, m: nat, n: nat)
    requires m <= n <= |blocks|
    ensures Rows(blocks) == Rows(blocks[..m]) + Rows(blocks[m..n]) + Rows(blocks[n..])
    ensures |Rows(blocks[m..n])| == Above(blocks, n) - Above(blocks, m)
    ensures |Rows(blocks)| == Above(blocks, |blocks|)
  {
    assert blocks == blocks[..n] + blocks[n..] && blocks[..n] == blocks[..m] + blocks[m..n];
    RowsConcat(blocks[..n], blocks[n..]);
    RowsConcat(blocks[..m], blocks[m..n]);
    assert blocks[..|blocks|] == blocks;
  }

  lemma {:induction false} RowInBlock(blocks: seq<Metric>, n: nat, row: nat)
    requires n < |blocks| && row < blocks[n].height
    ensures Above(blocks, n) + row < |Rows(blocks)|
    ensures Rows(blocks)[Above(blocks, n) + row] == Row(blocks[n].key, row)
  {
    RowsSplit(blocks, n, n + 1);
    assert blocks[n..n + 1] == [blocks[n]];
    assert Rows([blocks[n]]) == BlockRows(blocks[n]);
  }

  // ----- the fast form: prefix sums in machine integers -----

  ghost predicate LaidOut(blocks: seq<Metric>, contentHeight: nat)
  {
    && (forall i :: 0 <= i < |blocks| ==>
          blocks[i].start == Saturate(Above(blocks, i)) && 1 <= blocks[i].height <= USIZE_MAX)
    && contentHeight == Saturate(|Rows(blocks)|)
  }

  /** The place a reader sees at the top of the screen, if the screen shows any row there. */
  ghost function Place(blocks: seq<Metric>, top: nat): (r: Option<Row>)
  {
    if top < |Rows(blocks)| && top < USIZE_MAX then Some(Rows(blocks)[top]) else None
  }

  /** The rows a screen of `height` rows shows of `rows` when it starts at row `top`. */
  function Screenful(rows: seq<Row>, top: nat, height: nat): (r: seq<Row>)
    ensures |r| == Max(Min(height, |rows| - top), 0)
    ensures forall i :: 0 <= i < |r| ==> r[i] == rows[top + i]
  {
    if top <= |rows| then rows[top..Min(top + height, |rows|)] else []
  }

  lemma {:induction false} ScreenfulInside(above: seq<Row>, shown: seq<Row>, below: seq<Row>, scroll: nat, height: nat)
    requires scroll <= |shown|
    requires below == [] || scroll + height <= |shown|
    ensures Screenful(above + shown + below, |above| + scroll, height) == Screenful(shown, scroll, height)
  {
  }

  /** The searched range starts at the block that holds row `top` and ends past the last row shown. */
  lemma {:induction false} RangeHoldsTheScreen(blocks: seq<Metric>, contentHeight: nat, top: nat, height: nat,
                            first: nat, end: nat, scroll: nat)
    requires LaidOut(blocks, contentHeight) && top <= Max(contentHeight - height, 0) && 0 < height <= USIZE_MAX
    requires first <= end <= |blocks| && first < |blocks|
    requires Above(blocks, first) <= top || top == USIZE_MAX
    requires top < Saturate(blocks[first].start + blocks[first].height)
    requires scroll == Max(top - blocks[first].start, 0)
    requires end < |blocks| ==> Saturate(top + height) <= blocks[end].start
    ensures Above(blocks, first) + scroll == top && first < end
    ensures top <= Above(blocks, end)
    ensures end < |blocks| ==> top + height <= Above(blocks, end)
  {
    RowsSplit(blocks, first, end);
    AboveStep(blocks, first);
    AboveMonotone(blocks, first, end);
    hide Above, Rows;
  }

  lemma {:induction false} VisibleRange(blocks: seq<Metric>, contentHeight: nat, top: nat, height: nat,
                     first: nat, end: nat, scroll: nat)
    requires LaidOut(blocks, contentHeight) && top <= Max(contentHeight - height, 0) && height <= USIZE_MAX
    requires first <= end <= |blocks|
    requires Above(blocks, first) <= top || top == USIZE_MAX
    requires first < |blocks| ==> top < Saturate(blocks[first].start + blocks[first].height)
    requires scroll == if first < |blocks| then Max(top - blocks[first].start, 0) else 0
    requires end < |blocks| ==> Saturate(top + height) <= blocks[end].start
    ensures Screenful(Rows(blocks[first..end]), scroll, height) == Screenful(Rows(blocks), top, height)
  {
    if height == 0 {
      return;
    }
    hide Rows, BlockRows, Screenful, Above;
    RowsSplit(blocks, first, end);
    if first == |blocks| {
      assert Rows(blocks) == Rows(blocks[..first]);
    } else {
      RangeHoldsTheScreen(blocks, contentHeight, top, height, first, end, scroll);
      hide LaidOut;
      ScreenfulInside(Rows(blocks[..first]), Rows(blocks[first..end]), Rows(blocks[end..]), scroll, height);
    }
  }

  // ----- renaming a preview -----

  function RenameKey(key: BlockKey, runId: nat, messageId: nat): BlockKey
  {
    if key.Transient? && key.runId == runId then Entry(messageId, key.part) else key
  }

  function RenameRow(row: Row, runId: nat, messageId: nat): Row
  {
    row.(key := RenameKey(row.key, runId, messageId))
  }

  function RenameRows(rows: seq<Row>, runId: nat, messageId: nat): seq<Row>
  {
    seq(|rows|, i requires 0 <= i < |rows| => RenameRow(rows[i], runId, messageId))
  }

  function Renamed(blocks: seq<Metric>, runId: nat, messageId: nat): seq<Metric>
  {
    seq(|blocks|, i requires 0 <= i < |blocks| => blocks[i].(key := RenameKey(blocks[i].key, runId, messageId)))
  }

  lemma {:induction false} RenamedRows(blocks: seq<Metric>, runId: nat, messageId: nat)
    ensures Rows(Renamed(blocks, runId, messageId)) == RenameRows(Rows(blocks), runId, messageId)
    decreases |blocks|
  {
    if blocks != [] {
      RenamedRows(blocks[1..], runId, messageId);
      assert Renamed(blocks, runId, messageId)[1..] == Renamed(blocks[1..], runId, messageId);
    }
  }

  lemma {:induction false} RenamedAbove(blocks: seq<Metric>, runId: nat, messageId: nat)
    ensures forall n :: 0 <= n <= |blocks| ==> Above(Renamed(blocks, runId, messageId), n) == Above(blocks, n)
  {
    forall n | 0 <= n <= |blocks|
      ensures Above(Renamed(blocks, runId, messageId), n) == Above(blocks, n)
    {
      RenamedRows(blocks[..n], runId, messageId);
      assert Renamed(blocks, runId, messageId)[..n] == Renamed(blocks[..n], runId, messageId);
    }
  }

  /** `key` labels block `n` and no earlier one. */
  predicate FirstWithKey(blocks: seq<Metric>, key: BlockKey, n: nat)
  {
    n < |blocks| && blocks[n].key == key && forall i :: 0 <= i < n ==> blocks[i].key != key
  }

  predicate HasKey(blocks: seq<Metric>, key: BlockKey)
  {
    exists i :: 0 <= i < |blocks| && blocks[i].key == key
  }

  /** The reader's row in a block, or the last row the block still has. */
  function KeptRow(block: Metric, row: nat): (r: nat)
    ensures block.height > 0 ==> r < block.height
  {
    Min(row, Max(block.height - 1, 0))
  }

  /** Clamping to the end of the content is all that keeps the kept row from the top of the screen. */
  lemma {:induction false} KeptTop(blocks: seq<Metric>, contentHeight: nat, height: nat, place: Row, n: nat)
    requires LaidOut(blocks, contentHeight) && FirstWithKey(blocks, place.key, n)
    ensures var row := KeptRow(blocks[n], place.row);
      var maximumTop := Max(contentHeight - height, 0);
      var top := Min(Saturate(Above(blocks, n) + row), maximumTop);
      && top == Min(Above(blocks, n) + row, maximumTop)
      && (top == Above(blocks, n) + row && top < USIZE_MAX ==> Place(blocks, top) == Some(Row(place.key, row)))
  {
    RowInBlock(blocks, n, KeptRow(blocks[n], place.row));
  }

  /** `blocks` are the measured blocks, in order, each at least one row high. */
  predicate Measures(blocks: seq<Metric>, measured: Measurement)
  {
    |blocks| == |measured|
    && forall i :: 0 <= i < |blocks| ==>
         blocks[i].key == measured[i].0 && blocks[i].height == Max(measured[i].1, 1)
  }

  class TranscriptViewport {
    var followLatest: bool
    var top: nat
    var width: nat
    var height: nat
    var contentHeight: nat
    var blocks: seq<Metric>
    var layoutDirty: bool
    var newerOutput: bool

    ghost predicate Valid()
      reads this
    {
      && height <= U16_MAX
      && LaidOut(blocks, contentHeight)
      && top <= MaximumTop()
      && (followLatest ==> top == MaximumTop())
    }

    constructor ()
      ensures Valid()
      ensures followLatest && top == 0 && blocks == [] && layoutDirty && !newerOutput
    {
      followLatest, top, width, height, contentHeight := true, 0, 0, 0, 0;
      blocks, layoutDirty, newerOutput := [], true, false;
    }

    method Reset()
      modifies this
      ensures Valid()
      ensures followLatest && top == 0 && blocks == [] && layoutDirty && !newerOutput
    {
      followLatest, top, width, height, contentHeight := true, 0, 0, 0, 0;
      blocks, layoutDirty, newerOutput := [], true, false;
    }

    method ResetToTop()
      modifies this
      ensures Valid()
      ensures !followLatest && top == 0 && blocks == [] && layoutDirty && !newerOutput
    {
      Reset();
      followLatest := false;
    }

    predicate NeedsMeasurement(newWidth: nat)
      reads this
    {
      layoutDirty || width != newWidth
    }

    function MaximumTop(): (r: nat)
      reads this
      ensures r <= contentHeight
    {
      Max(contentHeight - height, 0)
    }

    function PageRows(): (r: nat)
      reads this
      ensures r >= 1
    {
      Max(height - 1, 1)
    }

    method Anchor() returns (r: Option<Row>)
      requires Valid()
      ensures r == Place(blocks, top)
    {
      for i := 0 to |blocks|
        invariant Above(blocks, i) <= top || top == USIZE_MAX
      {
        AboveStep(blocks, i);
        if blocks[i].start <= top < Saturate(blocks[i].start + blocks[i].height) {
          RowInBlock(blocks, i, top - blocks[i].start);
          return Some(Row(blocks[i].key, top - blocks[i].start));
        }
      }
      RowsSplit(blocks, 0, 0);
      return None;
    }

    method Measure(measured: Measurement) returns (metrics: seq<Metric>, total: nat)
      requires forall m :: m in measured ==> m.1 <= USIZE_MAX
      ensures Measures(metrics, measured) && LaidOut(metrics, total)
    {
      metrics, total := [], 0;
      for i := 0 to |measured|
        invariant Measures(metrics, measured[..i])
        invariant LaidOut(metrics, total)
      {
        var h := Max(measured[i].1, 1);
        var metric := Metric(measured[i].0, total, h);
        var longer := metrics + [metric];
        RowsConcat(metrics, [metric]);
        forall k | 0 <= k <= |metrics|
          ensures Above(longer, k) == Above(metrics, k)
        {
          assert longer[..k] == metrics[..k];
        }
        RowsSplit(metrics, 0, 0);
        assert measured[i] in measured;
        metrics := longer;
        total := Saturate(total + h);
      }
      assert measured[..|measured|] == measured;
    }

    method FindKey(key: BlockKey) returns (r: Option<nat>)
      ensures r.Some? ==> FirstWithKey(blocks, key, r.value)
      ensures r.None? ==> !HasKey(blocks, key)
    {
      for i := 0 to |blocks|
        invariant forall k :: 0 <= k < i ==> blocks[k].key != key
      {
        if blocks[i].key == key {
          return Some(i);
        }
      }
      return None;
    }

    /** Finds the block the reader was in and the row the screen should now start at. */
    method Retarget(anchor: Option<Row>) returns (kept: Option<nat>, target: nat)
      requires LaidOut(blocks, contentHeight)
      ensures kept.Some? ==>
        && anchor.Some?
        && FirstWithKey(blocks, anchor.value.key, kept.value)
        && target == Saturate(Above(blocks, kept.value) + KeptRow(blocks[kept.value], anchor.value.row))
      ensures kept.None? ==> target == top && (anchor.Some? ==> !HasKey(blocks, anchor.value.key))
    {
      kept, target := None, top;
      if anchor.Some? {
        kept := FindKey(anchor.value.key);
        if kept.Some? {
          target := Saturate(blocks[kept.value].start + KeptRow(blocks[kept.value], anchor.value.row));
        }
      }
    }

    /**
     * Lays the transcript out for a screen of the given size.  A follower stays at the end; any
     * other reader keeps the block and, as far as the block still has it, the row at the top of
     * the screen, unless the transcript is now too short below it.
     */
    method UpdateLayout(newWidth: nat, newHeight: nat, measured: Option<Measurement>)
        returns (ghost place: Option<Row>, ghost kept: Option<nat>)
      requires Valid() && newHeight <= U16_MAX
      requires measured.Some? ==> forall m :: m in measured.value ==> m.1 <= USIZE_MAX
      modifies this
      ensures Valid()
      ensures height == newHeight
      ensures measured.Some? ==> Measures(blocks, measured.value) && width == newWidth && !layoutDirty
      ensures measured.None? ==> blocks == old(blocks) && width == old(width) && layoutDirty == old(layoutDirty)
      ensures followLatest == (old(followLatest) || MaximumTop() == 0)
      ensures newerOutput == (old(newerOutput) && !followLatest)
      ensures place == old(Place(blocks, top))
      ensures !followLatest && place.Some? && HasKey(blocks, place.value.key) ==> kept.Some?
      ensures !followLatest && kept.Some? ==>
        && place.Some?
        && FirstWithKey(blocks, place.value.key, kept.value) && KeepsPlace(place.value, kept.value)
      ensures !followLatest && kept.None? ==> top == Min(old(top), MaximumTop())
    {
      hide Rows, LaidOut, Place, Above, Measures, HasKey, FirstWithKey, Saturate, KeptRow;
      place, kept := Place(blocks, top), None;
      var anchor := None;
      if !followLatest {
        anchor := Anchor();
      }
      if measured.Some? {
        blocks, contentHeight := Measure(measured.value);
        width := newWidth;
        layoutDirty := false;
      }
      height := newHeight;
      var maximumTop := MaximumTop();
      if followLatest {
        top := maximumTop;
        newerOutput := false;
        return;
      }
      if maximumTop == 0 {
        followLatest := true;
        top := 0;
        newerOutput := false;
        return;
      }
      var target;
      kept, target := Retarget(anchor);
      top := Min(target, maximumTop);
      if kept.Some? {
        KeptTop(blocks, contentHeight, height, place.value, kept.value);
      }
    }

    /**
     * The screen starts in block `n`, at the row the reader was on or at the block's last row, or
     * else the transcript ends too soon after it; and where the screen starts is what it shows.
     */
    ghost predicate KeepsPlace(place: Row, n: nat)
      requires n < |blocks|
      reads this
    {
      var row := KeptRow(blocks[n], place.row);
      && top == Min(Above(blocks, n) + row, MaximumTop())
      && (top == Above(blocks, n) + row && top < USIZE_MAX ==> Place(blocks, top) == Some(Row(place.key, row)))
    }

    /** A preview becomes the committed entry: its blocks are renamed and nothing moves. */
    method ReplaceTransient(runId: nat, messageId: nat)
      requires Valid()
      modifies this`blocks
      ensures Valid()
      ensures Rows(blocks) == RenameRows(old(Rows(blocks)), runId, messageId)
      ensures old(Place(blocks, top)).Some? ==>
        Place(blocks, top) == Some(RenameRow(old(Place(blocks, top)).value, runId, messageId))
    {
      RenameKeys(runId, messageId);
      hide Rows, RenameRows;
      RenamedRows(old(blocks), runId, messageId);
      RenamedAbove(old(blocks), runId, messageId);
    }

    method RenameKeys(runId: nat, messageId: nat)
      modifies this`blocks
      ensures blocks == Renamed(old(blocks), runId, messageId)
    {
      var i := 0;
      while i < |blocks|
        invariant 0 <= i <= |blocks| == |old(blocks)|
        invariant forall k :: 0 <= k < i ==> blocks[k] == Renamed(old(blocks), runId, messageId)[k]
        invariant forall k :: i <= k < |blocks| ==> blocks[k] == old(blocks)[k]
      {
        if blocks[i].key.Transient? && blocks[i].key.runId == runId {
          blocks := blocks[i := blocks[i].(key := Entry(messageId, blocks[i].key.part))];
        }
        i := i + 1;
      }
    }

    method NoteContentChanged()
      requires Valid()
      modifies this`layoutDirty, this`newerOutput
      ensures Valid()
      ensures layoutDirty && newerOutput == (old(newerOutput) || !followLatest)
    {
      NoteLayoutChanged();
      if !followLatest {
        newerOutput := true;
      }
    }

    method NoteLayoutChanged()
      requires Valid()
      modifies this`layoutDirty
      ensures Valid() && layoutDirty
    {
      layoutDirty := true;
    }

    method NoteNewerOutput()
      requires Valid()
      modifies this`newerOutput
      ensures Valid() && newerOutput
    {
      newerOutput := true;
    }

    method ScrollLinesUp(rows: nat)
      requires Valid()
      modifies this`top, this`followLatest
      ensures Valid()
      ensures top == Max(old(top) - rows, 0)
      ensures followLatest == (old(followLatest) && top == old(top))
    {
      var current := if followLatest then MaximumTop() else top;
      var next := Max(current - rows, 0);
      if next < current {
        followLatest := false;
        top := next;
      }
    }

    method ScrollLinesDown(rows: nat)
      requires Valid()
      modifies this`top, this`followLatest, this`newerOutput
      ensures Valid()
      ensures top == Min(old(top) + rows, MaximumTop())
      ensures followLatest == (old(followLatest) || top == MaximumTop())
      ensures newerOutput == (old(newerOutput) && (old(followLatest) || !followLatest))
    {
      if followLatest {
        return;
      }
      var maximumTop := MaximumTop();
      top := Min(Saturate(top + rows), maximumTop);
      if top == maximumTop {
        ScrollToBottom();
      }
    }

    method ScrollPageUp()
      requires Valid()
      modifies this`top, this`followLatest
      ensures Valid()
      ensures top == Max(old(top) - PageRows(), 0)
      ensures followLatest == (old(followLatest) && top == old(top))
    {
      ScrollLinesUp(PageRows());
    }

    method ScrollPageDown()
      requires Valid()
      modifies this`top, this`followLatest, this`newerOutput
      ensures Valid()
      ensures top == Min(old(top) + PageRows(), MaximumTop())
      ensures followLatest == (old(followLatest) || top == MaximumTop())
    {
      ScrollLinesDown(PageRows());
    }

    method ScrollToTop()
      requires Valid()
      modifies this`top, this`followLatest
      ensures Valid() && top == 0
      ensures followLatest == (old(followLatest) && MaximumTop() == 0)
    {
      if MaximumTop() > 0 {
        followLatest := false;
        top := 0;
      }
    }

    method ScrollToBottom()
      requires Valid()
      modifies this`top, this`followLatest, this`newerOutput
      ensures Valid() && followLatest && !newerOutput
    {
      followLatest := true;
      top := MaximumTop();
      newerOutput := false;
    }

    predicate AtBottom()
      requires Valid()
      reads this
      ensures AtBottom() <==> top == MaximumTop()
    {
      followLatest || top >= MaximumTop()
    }

    /**
     * The blocks that intersect the screen and the rows of the first one that lie above it.
     * Drawing those blocks, skipping those rows and stopping after one screenful shows exactly
     * the rows of the transcript from `top` on.
     */
    method VisibleBlockRange() returns (first: nat, end: nat, localScroll: nat)
      requires Valid()
      ensures first <= end <= |blocks|
      ensures Screenful(Rows(blocks[first..end]), localScroll, height) == Screenful(Rows(blocks), top, height)
    {
      var visibleEnd := Saturate(top + height);
      first := 0;
      while first < |blocks| && Saturate(blocks[first].start + blocks[first].height) <= top
        invariant first <= |blocks|
        invariant Above(blocks, first) <= top || top == USIZE_MAX
      {
        AboveStep(blocks, first);
        first := first + 1;
      }
      end := first;
      while end < |blocks| && blocks[end].start < visibleEnd
        invariant first <= end <= |blocks|
      {
        end := end + 1;
      }
      localScroll := if first < |blocks| then Max(top - blocks[first].start, 0) else 0;
      VisibleRange(blocks, contentHeight, top, height, first, end, localScroll);
    }
  }

  /**
   * A reader inside a streaming preview stays on the same part and row when the preview is
   * committed as a transcript entry and the transcript is laid out again.
   */
  method CommitThenDraw(v: TranscriptViewport, runId: nat, messageId: nat,
                        width: nat, height: nat, measured: Measurement) returns (ghost kept: Option<nat>)
    requires v.Valid() && height <= U16_MAX
    requires forall m :: m in measured ==> m.1 <= USIZE_MAX
    modifies v
    ensures v.Valid() && Measures(v.blocks, measured)
    ensures !v.followLatest && old(Place(v.blocks, v.top)).Some? ==>
      var place := RenameRow(old(Place(v.blocks, v.top)).value, runId, messageId);
      && (HasKey(v.blocks, place.key) ==> kept.Some?)
      && (kept.Some? ==> FirstWithKey(v.blocks, place.key, kept.value) && v.KeepsPlace(place, kept.value))
  {
    v.ReplaceTransient(runId, messageId);
    v.NoteContentChanged();
    ghost var place;
    place, kept := v.UpdateLayout(width, height, Some(measured));
  }
}
