/** Left-padded batches, the attended part of a row, and the cached forward pass. */
module Padding {
  import opened Sums
  import opened Requests
  import opened Sampling

  /** What produces tokens: the mock, or a model with its padding token. */
  datatype Runner = Mock | Qwen(model: Model, pad: int)

  /** The columns already fed to the model, row by row. */
  type Cache = seq<seq<Cell>>

  /** How one pass ends: `columns` is how many the model was fed in it. */
  datatype Executed = Raised | Done(picks: seq<Option<int>>, cache: Option<Cache>, columns: nat)

  // ---- one padded row ----

  function PadIds(pad: int, p: nat, toks: seq<int>): (r: seq<int>)
    ensures |r| == p + |toks|
  {
    seq(p, _ => pad) + toks
  }

  function Mask(p: nat, n: nat): (r: seq<int>)
    ensures |r| == p + n
  {
    seq(p, _ => 0) + seq(n, _ => 1)
  }

  /** Running sum of the mask, less one, clamped at zero. */
  function Positions(mask: seq<int>): (r: seq<int>)
    ensures |r| == |mask|
  {
    seq(|mask|, c requires 0 <= c < |mask| =>
      var sum := Sum(mask[..c + 1]); if sum - 1 < 0 then 0 else sum - 1)
  }

  function Zip(ids: seq<int>, positions: seq<int>): (r: seq<Cell>)
    requires |ids| == |positions|
    ensures |r| == |ids|
  {
    seq(|ids|, c requires 0 <= c < |ids| => Cell(ids[c], positions[c]))
  }

  function PaddedRow(pad: int, p: nat, toks: seq<int>): (r: seq<Cell>)
    ensures |r| == p + |toks|
  {
    Zip(PadIds(pad, p, toks), Positions(Mask(p, |toks|)))
  }

  /** The columns the mask lets a row attend to. */
  function Attended(cells: seq<Cell>, mask: seq<int>): seq<Cell>
    requires |cells| == |mask|
  {
    if cells == [] then []
    else
      var n := |cells| - 1;
      Attended(cells[..n], mask[..n]) + (if mask[n] == 1 then [cells[n]] else [])
  }

  /** The row on its own: its tokens at positions 0, 1, 2, ... */
  function Plain(toks: seq<int>): (r: seq<Cell>)
    ensures |r| == |toks|
  {
    seq(|toks|, i requires 0 <= i < |toks| => Cell(toks[i], i))
  }

  lemma {:induction false} MaskPrefixSum(p: nat, n: nat, c: nat)
    requires c <= p + n
    ensures Sum(Mask(p, n)[..c]) == if c <= p then 0 else c - p
  {
    if c > 0 {
      MaskPrefixSum(p, n, c - 1);
      assert Mask(p, n)[..c] == Mask(p, n)[..c - 1] + [Mask(p, n)[c - 1]];
      SumSnoc(Mask(p, n)[..c - 1], Mask(p, n)[c - 1]);
    }
  }

  /** Positions skip the pads: the first real token of a row is at 0 whatever its padding. */
  lemma {:induction false} PaddedRowIs(pad: int, p: nat, toks: seq<int>)
    ensures PaddedRow(pad, p, toks) == seq(p, _ => Cell(pad, 0)) + Plain(toks)
  {
    var mask := Mask(p, |toks|);
    forall c | 0 <= c < p + |toks|
      ensures Positions(mask)[c] == if c < p then 0 else c - p
    {
      MaskPrefixSum(p, |toks|, c + 1);
    }
  }

  lemma {:induction false} AttendedTokens(cells: seq<Cell>, mask: seq<int>, p: nat, n: nat)
    requires |cells| == |mask| == p + n
    requires forall c | 0 <= c < p :: mask[c] == 0
    requires forall c | p <= c < p + n :: mask[c] == 1
    ensures Attended(cells, mask) == cells[p..]
  {
    if n > 0 {
      AttendedTokens(cells[..p + n - 1], mask[..p + n - 1], p, n - 1);
      assert cells[p..] == cells[..p + n - 1][p..] + [cells[p + n - 1]];
    } else {
      AttendedNothing(cells, mask);
    }
  }

  lemma {:induction false} AttendedNothing(cells: seq<Cell>, mask: seq<int>)
    requires |cells| == |mask|
    requires forall c | 0 <= c < |mask| :: mask[c] == 0
    ensures Attended(cells, mask) == []
  {
    if cells != [] {
      AttendedNothing(cells[..|cells| - 1], mask[..|cells| - 1]);
    }
  }

  /**
   * Padding is invisible: what a padded row attends to is the row on its own, whatever the
   * width of the batch and the padding token, and its last column is its newest token.
   */
  lemma {:induction false} PaddingIsInvisible(pad: int, p: nat, toks: seq<int>)
    ensures Attended(PaddedRow(pad, p, toks), Mask(p, |toks|)) == Plain(toks)
    ensures toks != [] ==>
      PaddedRow(pad, p, toks)[p + |toks| - 1] == Cell(toks[|toks| - 1], |toks| - 1)
  {
    PaddedRowIs(pad, p, toks);
    AttendedTokens(PaddedRow(pad, p, toks), Mask(p, |toks|), p, |toks|);
  }

  // ---- one batch ----

  /** Length of the longest row. */
  function Width(rows: seq<Entry>): (w: nat)
    ensures forall i | 0 <= i < |rows| :: rows[i].Len() <= w
    ensures rows != [] ==> exists i :: 0 <= i < |rows| && rows[i].Len() == w
  {
    if rows == [] then 0
    else
      var n := |rows| - 1;
      var w := Width(rows[..n]);
      assert forall i | 0 <= i < n :: rows[..n][i] == rows[i];
      assert rows[n].Len() < w ==> n > 0;
      if rows[n].Len() >= w then rows[n].Len() else w
  }

  function Full(pad: int, width: nat, q: Entry): (r: seq<Cell>)
    requires q.Len() <= width
    ensures |r| == width
  {
    PaddedRow(pad, width - q.Len(), q.Tokens())
  }

  function RowMask(width: nat, q: Entry): (r: seq<int>)
    requires q.Len() <= width
    ensures |r| == width
  {
    Mask(width - q.Len(), q.Len())
  }

  function Matrix(pad: int, rows: seq<Entry>): (r: Cache)
    ensures |r| == |rows|
    ensures forall i | 0 <= i < |r| :: |r[i]| == Width(rows)
  {
    seq(|rows|, i requires 0 <= i < |rows| => Full(pad, Width(rows), rows[i]))
  }

  /** The padded batch without its newest column. */
  function AllButLast(pad: int, rows: seq<Entry>): (r: Cache)
    requires Width(rows) > 0
    ensures |r| == |rows|
  {
    seq(|rows|, i requires 0 <= i < |rows| => Full(pad, Width(rows), rows[i])[..Width(rows) - 1])
  }

  /** A cache that is one column short of the batch, row for row. */
  predicate OneColumnShort(cache: Cache, rows: seq<Entry>) {
    |cache| == |rows| && forall i | 0 <= i < |cache| :: |cache[i]| + 1 == Width(rows)
  }

  /** What the model has been fed once this pass is done: everything, or the cache and the last column. */
  ghost function Fed(pad: int, cache: Option<Cache>, rows: seq<Entry>): (r: Cache)
    requires Width(rows) > 0
    requires cache.Some? ==> OneColumnShort(cache.value, rows)
    ensures |r| == |rows| && forall i | 0 <= i < |r| :: |r[i]| == Width(rows)
  {
    match cache
    case None => Matrix(pad, rows)
    case Some(held) =>
      var w := Width(rows);
      seq(|rows|, i requires 0 <= i < |rows| => held[i] + Full(pad, w, rows[i])[w - 1..])
  }

  /** One token per row, each from what its own row attends to and under its own settings. */
  ghost function Picks(model: Model, fed: Cache, rows: seq<Entry>): (r: seq<Option<int>>)
    requires |fed| == |rows| && forall i | 0 <= i < |fed| :: |fed[i]| == Width(rows)
    ensures |r| == |rows|
  {
    seq(|rows|, i requires 0 <= i < |rows| =>
      SampleRow(model, model.logits(Attended(fed[i], RowMask(Width(rows), rows[i]))), rows[i].req))
  }

  /** One forward pass. Tensors that do not fit, or have no column to read, raise. */
  ghost function ExecuteQwen(
      model: Model, pad: int, cache: Option<Cache>, prefill: bool, rows: seq<Entry>): (r: Executed)
    ensures r.Done? ==> |r.picks| == |rows|
  {
    var held := if prefill then None else cache;
    if Width(rows) == 0 || (held.Some? && !OneColumnShort(held.value, rows)) then Raised
    else
      var fed := Fed(pad, held, rows);
      Done(Picks(model, fed, rows), Some(fed), if held.Some? then 1 else Width(rows))
  }

  ghost function Execute(r: Runner, cache: Option<Cache>, prefill: bool, rows: seq<Entry>): (done: Executed)
    ensures done.Done? ==> |done.picks| == |rows|
  {
    match r
    case Mock => Done(seq(|rows|, _ => Some(0)), cache, 0)
    case Qwen(model, pad) => ExecuteQwen(model, pad, cache, prefill, rows)
  }

  /** The simple computation: one request, no batch, no padding, no cache. */
  function Next(r: Runner, req: Request, toks: seq<int>): Option<int> {
    match r
    case Mock => Some(0)
    case Qwen(model, _) => SampleRow(model, model.logits(Plain(toks)), req)
  }

  lemma {:induction false} FitsOnTop(pad: int, rows: seq<Entry>)
    requires Width(rows) > 0
    ensures OneColumnShort(AllButLast(pad, rows), rows)
  {
  }

  lemma {:induction false} ColumnOnTop(pad: int, rows: seq<Entry>, i: nat)
    requires Width(rows) > 0 && i < |rows|
    ensures AllButLast(pad, rows)[i] + Full(pad, Width(rows), rows[i])[Width(rows) - 1..] == Matrix(pad, rows)[i]
  {
    var full, w := Full(pad, Width(rows), rows[i]), Width(rows);
    assert full == full[..w - 1] + full[w - 1..];
  }

  /** Feeding one column on top of a cache that holds all the others gives the same picks and the
      same cache as a full prefill, which is fed every column. */
  lemma {:induction false} CachedIsPrefill(model: Model, pad: int, rows: seq<Entry>)
    requires Width(rows) > 0
    ensures var full := ExecuteQwen(model, pad, None, true, rows);
      && full.Done? && full.columns == Width(rows)
      && ExecuteQwen(model, pad, Some(AllButLast(pad, rows)), false, rows) == full.(columns := 1)
  {
    FitsOnTop(pad, rows);
    var cache := Some(AllButLast(pad, rows));
    forall i | 0 <= i < |rows|
      ensures Fed(pad, cache, rows)[i] == Matrix(pad, rows)[i]
    {
      ColumnOnTop(pad, rows, i);
    }
    assert Fed(pad, cache, rows) == Fed(pad, None, rows);
  }

  lemma {:induction false} RowAttendsToItself(pad: int, width: nat, q: Entry)
    requires q.Len() <= width
    ensures Attended(Full(pad, width, q), RowMask(width, q)) == Plain(q.Tokens())
  {
    PaddingIsInvisible(pad, width - q.Len(), q.Tokens());
  }

  /** A prefill gives every row the token it would get alone, and caches the whole batch. */
  lemma {:induction false} PrefillIsAlone(model: Model, pad: int, rows: seq<Entry>)
    requires Width(rows) > 0
    ensures var done := ExecuteQwen(model, pad, None, true, rows);
      && done.Done? && done.cache == Some(Matrix(pad, rows)) && |done.picks| == |rows|
      && done.columns == Width(rows)
      && forall i | 0 <= i < |rows| ::
        done.picks[i] == Next(Qwen(model, pad), rows[i].req, rows[i].Tokens())
  {
    forall i | 0 <= i < |rows|
      ensures Picks(model, Matrix(pad, rows), rows)[i]
           == Next(Qwen(model, pad), rows[i].req, rows[i].Tokens())
    {
      RowAttendsToItself(pad, Width(rows), rows[i]);
    }
  }

  ghost predicate EachGainedOne(rows: seq<Entry>, later: seq<Entry>) {
    |later| == |rows| && forall i | 0 <= i < |rows| ::
      later[i].req == rows[i].req && |later[i].out| == |rows[i].out| + 1 && rows[i].out <= later[i].out
  }

  /** When every row has gained exactly one token, the old batch is the new one without its last column. */
  lemma {:induction false} OldBatchIsAllButLast(pad: int, rows: seq<Entry>, later: seq<Entry>)
    requires rows != [] && EachGainedOne(rows, later)
    ensures Width(later) == Width(rows) + 1
    ensures AllButLast(pad, later) == Matrix(pad, rows)
  {
    WidthGrows(rows, later);
    hide Full, Width;
    forall i | 0 <= i < |rows|
      ensures AllButLast(pad, later)[i] == Matrix(pad, rows)[i]
    {
      OldRowIsAllButLast(pad, Width(rows), rows[i], later[i]);
    }
  }

  lemma {:induction false} OldRowIsAllButLast(pad: int, width: nat, q: Entry, later: Entry)
    requires q.Len() <= width
    requires later.req == q.req && |later.out| == |q.out| + 1 && q.out <= later.out
    ensures Full(pad, width + 1, later)[..width] == Full(pad, width, q)
  {
    TokensGrow(q, later);
    DroppingNewest(pad, width - q.Len(), q.Tokens(), later.Tokens());
  }

  lemma {:induction false} TokensGrow(q: Entry, later: Entry)
    requires later.req == q.req && |later.out| == |q.out| + 1 && q.out <= later.out
    ensures |later.Tokens()| == |q.Tokens()| + 1 && later.Tokens()[..|q.Tokens()|] == q.Tokens()
  {
  }

  lemma {:induction false} DroppingNewest(pad: int, p: nat, toks: seq<int>, later: seq<int>)
    requires |later| == |toks| + 1 && later[..|toks|] == toks
    ensures PaddedRow(pad, p, later)[..p + |toks|] == PaddedRow(pad, p, toks)
  {
    PaddedRowIs(pad, p, toks);
    PaddedRowIs(pad, p, later);
    assert Plain(later)[..|toks|] == Plain(toks);
  }

  lemma {:induction false} WidthGrows(rows: seq<Entry>, later: seq<Entry>)
    requires rows != [] && EachGainedOne(rows, later)
    ensures Width(later) == Width(rows) + 1
  {
    var i :| 0 <= i < |rows| && rows[i].Len() == Width(rows);
    var j :| 0 <= j < |later| && later[j].Len() == Width(later);
    assert later[i].Len() == rows[i].Len() + 1 && later[j].Len() == rows[j].Len() + 1;
  }
}
