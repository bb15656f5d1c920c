/** The model runner as the program has it: a row-indexed cache that survives from tick to tick. */
module Runners {
  import opened Sums
  import opened Requests
  import opened Sampling
  import opened Padding
  import opened Batching

  lemma {:induction false} WidthSnoc(rows: seq<Entry>, q: Entry)
    ensures Width(rows + [q]) == if q.Len() >= Width(rows) then q.Len() else Width(rows)
  {
    assert (rows + [q])[..|rows|] == rows;
  }

  lemma {:induction false} ViewsPrefix(rows: seq<Sequence>, i: nat)
    requires i < |rows|
    ensures Views(rows)[..i + 1] == Views(rows)[..i] + [rows[i].View()]
  {
  }

  /** Length of the longest sequence. */
  method MaxLength(rows: seq<Sequence>) returns (width: nat)
    ensures width == Width(Views(rows))
  {
    width := 0;
    var i := 0;
    while i < |rows|
      invariant 0 <= i <= |rows| && width == Width(Views(rows)[..i])
    {
      WidthSnoc(Views(rows)[..i], rows[i].View());
      ViewsPrefix(rows, i);
      if rows[i].Len() >= width {
        width := rows[i].Len();
      }
      i := i + 1;
    }
    assert Views(rows)[..i] == Views(rows);
  }

  /** cumsum(mask) - 1, clamped at zero. */
  method PositionIds(mask: seq<int>) returns (positions: seq<int>)
    ensures positions == Positions(mask)
  {
    positions := [];
    var c, sum := 0, 0;
    while c < |mask|
      invariant 0 <= c <= |mask| && sum == Sum(mask[..c])
      invariant positions == Positions(mask)[..c]
    {
      SumSnoc(mask[..c], mask[c]);
      assert mask[..c + 1] == mask[..c] + [mask[c]];
      sum := sum + mask[c];
      positions := positions + [if sum - 1 < 0 then 0 else sum - 1];
      c := c + 1;
    }
  }

  lemma {:induction false} RowParts(pad: int, width: nat, q: Entry)
    requires q.Len() <= width
    ensures |q.Tokens()| == q.Len()
    ensures RowMask(width, q) == seq(width - q.Len(), _ => 0) + seq(q.Len(), _ => 1)
    ensures Full(pad, width, q)
      == Zip(seq(width - q.Len(), _ => pad) + q.Tokens(), Positions(RowMask(width, q)))
  {
  }

  lemma {:induction false} MatrixRows(pad: int, rows: seq<Entry>, columns: Cache)
    requires |columns| == |rows|
    requires forall i | 0 <= i < |rows| :: columns[i] == Full(pad, Width(rows), rows[i])
    ensures columns == Matrix(pad, rows)
  {
  }

  class QwenRunner {
    const model: Model
    const padId: int
    var cache: Option<Cache>

    constructor (model: Model, padId: int)
      ensures this.model == model && this.padId == padId && cache == None
    {
      this.model, this.padId, cache := model, padId, None;
    }

    method Reset()
      modifies this
      ensures cache == None
    {
      cache := None;
    }

    /** One row, pushed to the right edge of the batch by pads that its mask leaves out. */
    method PadRow(s: Sequence, width: nat) returns (cells: seq<Cell>, mask: seq<int>)
      requires s.Len() <= width
      ensures s.View().Len() <= width
      ensures cells == Full(padId, width, s.View()) && mask == RowMask(width, s.View())
    {
      RowParts(padId, width, s.View());
      hide Positions, Full, RowMask, Zip;
      var pad := width - s.Len();
      var toks := s.req.prompt + s.outputIds;
      mask := seq(pad, _ => 0) + seq(|toks|, _ => 1);
      var positions := PositionIds(mask);
      cells := Zip(seq(pad, _ => padId) + toks, positions);
    }

    /** The columns and masks of a batch, short rows shifted to the right edge by pads. */
    method PadAndStack(rows: seq<Sequence>) returns (columns: Cache, masks: seq<seq<int>>)
      ensures columns == Matrix(padId, Views(rows))
      ensures |masks| == |rows| && forall i | 0 <= i < |rows| ::
        masks[i] == RowMask(Width(Views(rows)), Views(rows)[i])
    {
      var width := MaxLength(rows);
      ghost var views := Views(rows);
      columns, masks := [], [];
      var i := 0;
      hide Views, Width, Full, RowMask, Matrix;
      while i < |rows|
        invariant 0 <= i <= |rows| && |columns| == |masks| == i
        invariant forall j | 0 <= j < i :: columns[j] == Full(padId, width, views[j])
        invariant forall j | 0 <= j < i :: masks[j] == RowMask(width, views[j])
      {
        var cells, mask := PadRow(rows[i], width);
        columns, masks := columns + [cells], masks + [mask];
        i := i + 1;
      }
      MatrixRows(padId, views, columns);
    }

    /** Everything is fed, or, where columns are held, only the newest; the rest is on top of those. */
    method Feed(columns: Cache, held: Option<Cache>, ghost rows: seq<Entry>) returns (fed: Cache, width: nat)
      requires columns == Matrix(padId, rows) && Width(rows) > 0
      requires held.Some? ==> OneColumnShort(held.value, rows)
      ensures fed == Fed(padId, held, rows)
      ensures width == if held.Some? then 1 else Width(rows)
    {
      if held.None? {
        return columns, |columns[0]|;
      }
      fed, width := [], 0;
      var i := 0;
      while i < |columns|
        invariant 0 <= i <= |columns| && fed == Fed(padId, held, rows)[..i]
        invariant i > 0 ==> width == 1
      {
        var newest := columns[i][|columns[i]| - 1..];
        fed, width := fed + [held.value[i] + newest], |newest|;
        i := i + 1;
      }
    }

    /** One token per row, under each row's own settings. A row that fails comes back as None;
        memory that runs out while row `exhausted` is sampled ends the whole batch instead. */
    method Sample(fed: Cache, masks: seq<seq<int>>, rows: seq<Sequence>, exhausted: Option<nat>)
      returns (picked: Option<seq<Option<int>>>)
      requires |fed| == |rows| == |masks|
      requires forall i | 0 <= i < |rows| :: |fed[i]| == Width(Views(rows))
      requires forall i | 0 <= i < |rows| :: masks[i] == RowMask(Width(Views(rows)), Views(rows)[i])
      ensures picked == if exhausted.Some? && exhausted.value < |rows| then None
        else Some(Picks(model, fed, Views(rows)))
    {
      ghost var views := Views(rows);
      var sofar := [];
      var i := 0;
      hide Width;
      while i < |rows|
        invariant 0 <= i <= |rows| && sofar == Picks(model, fed, views)[..i]
        invariant exhausted.Some? ==> i <= exhausted.value
      {
        if exhausted == Some(i) {
          return None;
        }
        assert masks[i] == RowMask(Width(views), views[i]);
        sofar := sofar + [SampleRow(model, model.logits(Attended(fed[i], masks[i])), rows[i].req)];
        i := i + 1;
      }
      assert i == |rows|;
      assert Picks(model, fed, views)[..i] == Picks(model, fed, views);
      picked := Some(sofar);
    }

    /** One forward pass on top of the columns that are held, and one token per row. */
    method Forward(batch: seq<Sequence>, held: Option<Cache>, exhausted: Option<nat>) returns (done: Executed)
      ensures done == if exhausted.Some? && exhausted.value < |batch| then Raised
        else ExecuteQwen(model, padId, held, false, Views(batch))
    {
      hide Width, Matrix, Fed, Picks, RowMask, Views;
      var width := MaxLength(batch);
      if width == 0 {
        return Raised;
      }
      if held.Some? && !(|held.value| == |batch| && forall i | 0 <= i < |held.value| :: |held.value[i]| + 1 == width) {
        return Raised;
      }
      var columns, masks := PadAndStack(batch);
      var fed, fedColumns := Feed(columns, held, Views(batch));
      var picks := Sample(fed, masks, batch, exhausted);
      match picks {
        case None => done := Raised;
        case Some(tokens) => done := Done(tokens, Some(fed), fedColumns);
      }
    }

    /** One tick. The cache is dropped first when the loop says that the rows have changed. */
    method Execute(batch: seq<Sequence>, isPrefill: bool, exhausted: Option<nat>) returns (done: Executed)
      modifies this`cache
      ensures done == if exhausted.Some? && exhausted.value < |batch| then Raised
        else ExecuteQwen(model, padId, old(cache), isPrefill, Views(batch))
      ensures done.Done? ==> cache == done.cache
    {
      if isPrefill {
        cache := None;
      }
      done := Forward(batch, cache, exhausted);
      if done.Done? {
        cache := done.cache;
      }
    }
  }

  /** The mock advances every row by the same token and keeps nothing. */
  method MockExecute(batch: seq<Sequence>) returns (picks: seq<Option<int>>)
    ensures |picks| == |batch| && forall i | 0 <= i < |batch| ::
      picks[i] == Next(Mock, batch[i].req, batch[i].View().Tokens())
  {
    picks := seq(|batch|, _ => Some(0));
  }
}
