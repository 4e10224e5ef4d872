/** `resize` itself: four nested loops over a premultiplied picture, and the
    straight bytes they leave. */
module IconResizer {
  import opened Sums
  import opened Resample

  /** Premultiplied red, green and blue, and alpha. */
  type Pixel = p: seq<real> | |p| == 4 witness [0.0, 0.0, 0.0, 0.0]

  ghost predicate Square(src: seq<Pixel>, n: nat) {
    |src| == n * n
  }

  lemma IndexInside(y: int, x: int, n: nat)
    requires 0 <= y < n && 0 <= x < n
    ensures 0 <= y * n + x < n * n
  {
    assert (n - 1 - y) * n >= 0;
    assert (n - 1 - y) * n == n * n - n - y * n;
  }

  /** One channel of the picture, by row and column. */
  ghost function ChannelOf(src: seq<Pixel>, n: nat, c: int): Table
    requires Square(src, n) && 0 <= c < 4
  {
    (y, x) => if 0 <= y < n && 0 <= x < n then IndexInside(y, x, n); src[y * n + x][c] else 0.0
  }

  // ----- One target pixel -----

  function Added(acc: seq<real>, p: Pixel, w: real): (sum: seq<real>)
    requires |acc| == 4
    ensures |sum| == 4
  {
    seq(4, c requires 0 <= c < 4 => acc[c] + p[c] * w)
  }

  method AddPixel(acc: array<real>, p: Pixel, w: real)
    requires acc.Length == 4
    modifies acc
    ensures acc[..] == Added(old(acc[..]), p, w)
  {
    for c := 0 to 4
      invariant forall k :: 0 <= k < c ==> acc[k] == old(acc[k]) + p[k] * w
      invariant forall k :: c <= k < 4 ==> acc[k] == old(acc[k])
    {
      acc[c] := acc[c] + p[c] * w;
    }
    assert forall k :: 0 <= k < 4 ==> acc[..][k] == Added(old(acc[..]), p, w)[k];
  }

  /** The row of the source at `sy`, gathered up to column `sx`. */
  ghost function RowTo(axis: Axis, p: Table, tx: int, sy: int, sx: int): real {
    Sum(axis.first(tx), sx, RowOf(axis.Shared(RowOf(p, sy)), tx))
  }

  ghost function RowsTo(axis: Axis, p: Table, ty: int, tx: int, sy: int): real {
    Sum(axis.first(ty), sy, RowOf(axis.Shared(RowsGathered(axis, p, tx)), ty))
  }

  lemma RowStep(axis: Axis, p: Table, tx: int, sy: int, sx: int, wy: real)
    requires axis.first(tx) <= sx
    ensures RowTo(axis, p, tx, sy, sx + 1) * wy == RowTo(axis, p, tx, sy, sx) * wy + p(sy, sx) * (axis.weight(tx, sx) * wy)
  {
    var w := axis.weight(tx, sx);
    assert RowTo(axis, p, tx, sy, sx + 1) == RowTo(axis, p, tx, sy, sx) + p(sy, sx) * w;
    Distributed(RowTo(axis, p, tx, sy, sx), p(sy, sx), w, wy);
  }

  lemma Distributed(a: real, b: real, w: real, k: real)
    ensures (a + b * w) * k == a * k + b * (w * k)
  {
  }

  /** The weights of row `sy` up to column `sx`. */
  ghost function WeightTo(axis: Axis, tx: int, sy: int, sx: int, wy: real): real {
    RowTo(axis, Flat(1.0), tx, sy, sx) * wy
  }

  lemma WeightStep(axis: Axis, tx: int, sy: int, sx: int, wy: real, w: real)
    requires axis.first(tx) <= sx && w == axis.weight(tx, sx) * wy
    ensures WeightTo(axis, tx, sy, sx + 1, wy) == WeightTo(axis, tx, sy, sx, wy) + w
  {
    RowStep(axis, Flat(1.0), tx, sy, sx, wy);
  }

  lemma WeightStarts(axis: Axis, tx: int, sy: int, wy: real)
    ensures WeightTo(axis, tx, sy, axis.first(tx), wy) == 0.0
  {
  }

  /** The accumulators `start` part of the way along row `sy`. */
  ghost function AlongRow(src: seq<Pixel>, axis: Axis, tx: int, sy: int, sx: int, wy: real, start: seq<real>): (acc: seq<real>)
    requires Square(src, axis.n) && |start| == 4
    ensures |acc| == 4
  {
    seq(4, c requires 0 <= c < 4 => start[c] + RowTo(axis, ChannelOf(src, axis.n, c), tx, sy, sx) * wy)
  }

  lemma AlongRowStep(src: seq<Pixel>, axis: Axis, tx: int, sy: int, sx: int, wy: real, start: seq<real>, p: Pixel, w: real)
    requires Square(src, axis.n) && |start| == 4
    requires axis.first(tx) <= sx && 0 <= sx < axis.n && 0 <= sy < axis.n
    requires 0 <= sy * axis.n + sx < |src| && p == src[sy * axis.n + sx] && w == axis.weight(tx, sx) * wy
    ensures Added(AlongRow(src, axis, tx, sy, sx, wy, start), p, w) == AlongRow(src, axis, tx, sy, sx + 1, wy, start)
  {
    var next := Added(AlongRow(src, axis, tx, sy, sx, wy, start), p, w);
    forall c | 0 <= c < 4 ensures next[c] == AlongRow(src, axis, tx, sy, sx + 1, wy, start)[c] {
      RowStep(axis, ChannelOf(src, axis.n, c), tx, sy, sx, wy);
      assert ChannelOf(src, axis.n, c)(sy, sx) == p[c];
    }
  }

  lemma AlongRowStarts(src: seq<Pixel>, axis: Axis, tx: int, sy: int, wy: real, start: seq<real>)
    requires Square(src, axis.n) && |start| == 4
    ensures AlongRow(src, axis, tx, sy, axis.first(tx), wy, start) == start
  {
  }

  /** One row of the source added to the accumulators. */
  method AddRow(src: seq<Pixel>, axis: Axis, ty: nat, tx: nat, sy: nat, acc: array<real>, wsum: real) returns (wsum': real)
    requires axis.Fair() && ty < axis.m && tx < axis.m && sy < axis.n && Square(src, axis.n) && acc.Length == 4
    modifies acc
    ensures acc[..] == AlongRow(src, axis, tx, sy, axis.past(tx), axis.weight(ty, sy), old(acc[..]))
    ensures wsum' == wsum + WeightTo(axis, tx, sy, axis.past(tx), axis.weight(ty, sy))
  {
    var wy := axis.weight(ty, sy);
    wsum' := wsum;
    var sx := axis.first(tx);
    ghost var start := acc[..];
    AlongRowStarts(src, axis, tx, sy, wy, start);
    WeightStarts(axis, tx, sy, wy);
    while sx < axis.past(tx)
      invariant axis.first(tx) <= sx <= axis.past(tx)
      invariant acc[..] == AlongRow(src, axis, tx, sy, sx, wy, start)
      invariant wsum' == wsum + WeightTo(axis, tx, sy, sx, wy)
    {
      IndexInside(sy, sx, axis.n);
      var p, w := src[sy * axis.n + sx], axis.weight(tx, sx) * wy;
      AlongRowStep(src, axis, tx, sy, sx, wy, start, p, w);
      WeightStep(axis, tx, sy, sx, wy, w);
      AddPixel(acc, p, w);
      wsum' := wsum' + w;
      sx := sx + 1;
    }
  }

  /** The accumulators after the rows before `sy`. */
  ghost function DownRows(src: seq<Pixel>, axis: Axis, ty: int, tx: int, sy: int): (acc: seq<real>)
    requires Square(src, axis.n)
    ensures |acc| == 4
  {
    seq(4, c requires 0 <= c < 4 => RowsTo(axis, ChannelOf(src, axis.n, c), ty, tx, sy))
  }

  lemma RowsStep(axis: Axis, p: Table, ty: int, tx: int, sy: int)
    requires axis.first(ty) <= sy
    ensures RowsTo(axis, p, ty, tx, sy + 1) == RowsTo(axis, p, ty, tx, sy) + RowTo(axis, p, tx, sy, axis.past(tx)) * axis.weight(ty, sy)
  {
  }

  lemma WeightRowsStep(axis: Axis, ty: int, tx: int, sy: int)
    requires axis.first(ty) <= sy
    ensures RowsTo(axis, Flat(1.0), ty, tx, sy + 1) == RowsTo(axis, Flat(1.0), ty, tx, sy) + WeightTo(axis, tx, sy, axis.past(tx), axis.weight(ty, sy))
  {
    RowsStep(axis, Flat(1.0), ty, tx, sy);
  }

  lemma DownRowsStep(src: seq<Pixel>, axis: Axis, ty: int, tx: int, sy: int)
    requires Square(src, axis.n) && axis.first(ty) <= sy
    ensures AlongRow(src, axis, tx, sy, axis.past(tx), axis.weight(ty, sy), DownRows(src, axis, ty, tx, sy)) == DownRows(src, axis, ty, tx, sy + 1)
  {
    var acc := DownRows(src, axis, ty, tx, sy);
    forall c | 0 <= c < 4
      ensures AlongRow(src, axis, tx, sy, axis.past(tx), axis.weight(ty, sy), acc)[c] == DownRows(src, axis, ty, tx, sy + 1)[c]
    {
      RowsStep(axis, ChannelOf(src, axis.n, c), ty, tx, sy);
    }
  }

  lemma DownRowsStarts(src: seq<Pixel>, axis: Axis, ty: int, tx: int)
    requires Square(src, axis.n)
    ensures DownRows(src, axis, ty, tx, axis.first(ty)) == [0.0, 0.0, 0.0, 0.0]
    ensures RowsTo(axis, Flat(1.0), ty, tx, axis.first(ty)) == 0.0
  {
  }

  /** Every row the target covers. */
  method AddRows(src: seq<Pixel>, axis: Axis, ty: nat, tx: nat, acc: array<real>) returns (wsum: real)
    requires axis.Fair() && ty < axis.m && tx < axis.m && Square(src, axis.n)
    requires acc[..] == DownRows(src, axis, ty, tx, axis.first(ty))
    modifies acc
    ensures acc[..] == DownRows(src, axis, ty, tx, axis.past(ty))
    ensures wsum == RowsTo(axis, Flat(1.0), ty, tx, axis.past(ty))
  {
    wsum := 0.0;
    var sy := axis.first(ty);
    while sy < axis.past(ty)
      invariant axis.first(ty) <= sy <= axis.past(ty)
      invariant acc[..] == DownRows(src, axis, ty, tx, sy)
      invariant wsum == RowsTo(axis, Flat(1.0), ty, tx, sy)
    {
      WeightRowsStep(axis, ty, tx, sy);
      DownRowsStep(src, axis, ty, tx, sy);
      assert acc.Length == |acc[..]|;
      wsum := AddRow(src, axis, ty, tx, sy, acc, wsum);
      sy := sy + 1;
    }
  }

  method Accumulate(src: seq<Pixel>, axis: Axis, ty: nat, tx: nat) returns (acc: seq<real>, wsum: real)
    requires axis.Fair() && ty < axis.m && tx < axis.m && Square(src, axis.n)
    ensures |acc| == 4 && forall c :: 0 <= c < 4 ==> acc[c] == Acc(axis, ChannelOf(src, axis.n, c), ty, tx)
    ensures wsum == Acc(axis, Flat(1.0), ty, tx)
  {
    var sums := new real[4](_ => 0.0);
    DownRowsStarts(src, axis, ty, tx);
    assert sums[..] == [0.0, 0.0, 0.0, 0.0];
    wsum := AddRows(src, axis, ty, tx, sums);
    acc := sums[..];
  }

  // ----- Straight bytes -----

  /** Half away from zero. */
  function Round(r: real): int {
    if r >= 0.0 then (r + 0.5).Floor else -((-r + 0.5).Floor)
  }

  function Byte(v: real): nat {
    var r := Round(v * 255.0);
    if r < 0 then 0 else if r > 255 then 255 else r
  }

  function Straight(colour: real, alpha: real): real {
    if alpha > 0.0 then colour / alpha else 0.0
  }

  /** A channel of a target pixel once its sum is divided by its area. */
  ghost function Mean(axis: Axis, p: Table, ty: int, tx: int): real
    requires Sound(axis) && 0 <= ty < axis.m && 0 <= tx < axis.m
  {
    Acc(axis, p, ty, tx) / Acc(axis, Flat(1.0), ty, tx)
  }

  ghost function Channel(src: seq<Pixel>, axis: Axis, c: int, ty: int, tx: int): real
    requires Sound(axis) && 0 <= ty < axis.m && 0 <= tx < axis.m && Square(src, axis.n) && 0 <= c < 4
  {
    Mean(axis, ChannelOf(src, axis.n, c), ty, tx)
  }

  ghost function PixelBytes(src: seq<Pixel>, axis: Axis, ty: int, tx: int): seq<nat>
    requires Sound(axis) && 0 <= ty < axis.m && 0 <= tx < axis.m && Square(src, axis.n)
  {
    var a := Channel(src, axis, 3, ty, tx);
    [Byte(Straight(Channel(src, axis, 0, ty, tx), a)), Byte(Straight(Channel(src, axis, 1, ty, tx), a)),
     Byte(Straight(Channel(src, axis, 2, ty, tx), a)), Byte(a)]
  }

  /** Parts joined end to end. */
  ghost function Joined(part: int -> seq<nat>, count: nat): seq<nat> {
    if count == 0 then [] else Joined(part, count - 1) + part(count - 1)
  }

  /** The pixels of target row `ty`, and the rows of the target, by index. */
  ghost function PixelPart(src: seq<Pixel>, axis: Axis, ty: int): int -> seq<nat>
    requires Sound(axis) && 0 <= ty < axis.m && Square(src, axis.n)
  {
    tx => if 0 <= tx < axis.m then PixelBytes(src, axis, ty, tx) else [0, 0, 0, 0]
  }

  ghost function RowPart(src: seq<Pixel>, axis: Axis): int -> seq<nat>
    requires Sound(axis) && Square(src, axis.n)
  {
    ty => if 0 <= ty < axis.m then Joined(PixelPart(src, axis, ty), axis.m) else []
  }

  /** The target, row after row. */
  ghost function PictureBytes(src: seq<Pixel>, axis: Axis): seq<nat>
    requires Sound(axis) && Square(src, axis.n)
  {
    Joined(RowPart(src, axis), axis.m)
  }

  method OnePixel(src: seq<Pixel>, axis: Axis, ty: nat, tx: nat) returns (bytes: seq<nat>)
    requires Sound(axis) && ty < axis.m && tx < axis.m && Square(src, axis.n)
    ensures bytes == PixelBytes(src, axis, ty, tx)
  {
    var acc, wsum := Accumulate(src, axis, ty, tx);
    var a := acc[3] / wsum;
    bytes := [];
    for c := 0 to 3
      invariant |bytes| == c
      invariant forall k :: 0 <= k < c ==> bytes[k] == Byte(Straight(acc[k] / wsum, a))
    {
      bytes := bytes + [Byte(Straight(acc[c] / wsum, a))];
    }
    bytes := bytes + [Byte(a)];
    assert a == Channel(src, axis, 3, ty, tx);
    assert forall k :: 0 <= k < 3 ==> acc[k] / wsum == Channel(src, axis, k, ty, tx);
  }

  method OneRow(src: seq<Pixel>, axis: Axis, ty: nat) returns (out: seq<nat>)
    requires Sound(axis) && ty < axis.m && Square(src, axis.n)
    ensures out == Joined(PixelPart(src, axis, ty), axis.m)
  {
    out := [];
    for tx := 0 to axis.m
      invariant out == Joined(PixelPart(src, axis, ty), tx)
    {
      var bytes := OnePixel(src, axis, ty, tx);
      out := out + bytes;
    }
  }

  method ResizeOn(src: seq<Pixel>, axis: Axis) returns (out: seq<nat>)
    requires Sound(axis) && Square(src, axis.n)
    ensures out == PictureBytes(src, axis)
  {
    out := [];
    for ty := 0 to axis.m
      invariant out == Joined(RowPart(src, axis), ty)
    {
      var row := OneRow(src, axis, ty);
      out := out + row;
    }
  }

  /** A picture of no pixels: nothing is gathered, nought over nought is not a
      number, and neither that nor what is not above nought casts to anything but
      a clear black byte. */
  method ResizeNothing(m: nat) returns (out: seq<nat>)
    ensures |out| == 4 * (m * m) && forall i :: 0 <= i < |out| ==> out[i] == 0
  {
    out := [];
    for ty := 0 to m
      invariant |out| == 4 * (ty * m) && forall i :: 0 <= i < |out| ==> out[i] == 0
    {
      for tx := 0 to m
        invariant |out| == 4 * (ty * m) + 4 * tx && forall i :: 0 <= i < |out| ==> out[i] == 0
      {
        out := out + [0, 0, 0, 0];
      }
      assert (ty + 1) * m == ty * m + m;
    }
  }

  method Resize(src: seq<Pixel>, n: nat, m: nat) returns (out: seq<nat>)
    requires Square(src, n)
    ensures n == 0 || m == 0 ==> |out| == 4 * (m * m) && forall i :: 0 <= i < |out| ==> out[i] == 0
    ensures n > 0 && m > 0 ==> Sound(AxisOf(n, m)) && out == PictureBytes(src, AxisOf(n, m))
  {
    if n == 0 || m == 0 {
      out := ResizeNothing(m);
      return;
    }
    AxisSound(n, m);
    out := ResizeOn(src, AxisOf(n, m));
  }

  // ----- What the bytes are worth -----

  /** Alpha at most one, and no channel above it: what `read` produces. */
  ghost predicate Premultiplied(src: seq<Pixel>) {
    forall i :: 0 <= i < |src| ==> src[i][3] <= 1.0 && forall c :: 0 <= c < 3 ==> 0.0 <= src[i][c] <= src[i][3]
  }

  lemma ChannelsOrdered(src: seq<Pixel>, n: nat, c: int, y: int, x: int)
    requires Square(src, n) && Premultiplied(src) && 0 <= y < n && 0 <= x < n && 0 <= c < 3
    ensures 0.0 <= ChannelOf(src, n, c)(y, x) <= ChannelOf(src, n, 3)(y, x) <= 1.0
  {
    IndexInside(y, x, n);
    var p := src[y * n + x];
    assert ChannelOf(src, n, c)(y, x) == p[c] && ChannelOf(src, n, 3)(y, x) == p[3];
  }

  lemma MeanOrdered(axis: Axis, p: Table, q: Table, ty: int, tx: int)
    requires Sound(axis) && 0 <= ty < axis.m && 0 <= tx < axis.m
    requires forall y, x :: 0 <= y < axis.n && 0 <= x < axis.n ==> p(y, x) <= q(y, x)
    ensures Mean(axis, p, ty, tx) <= Mean(axis, q, ty, tx)
  {
    AccOrdered(axis, p, q, ty, tx);
    DividedAtMost(Acc(axis, p, ty, tx), Acc(axis, q, ty, tx), Acc(axis, Flat(1.0), ty, tx));
  }

  lemma DividedAtMost(a: real, b: real, d: real)
    requires a <= b && d > 0.0
    ensures a / d <= b / d
  {
    assert (b - a) / d >= 0.0;
    assert (b - a) / d == b / d - a / d;
  }

  lemma FlatMean(axis: Axis, v: real, ty: int, tx: int)
    requires Sound(axis) && 0 <= ty < axis.m && 0 <= tx < axis.m
    ensures Mean(axis, Flat(v), ty, tx) == v
  {
    AccScaled(axis, Flat(1.0), Flat(v), v, ty, tx);
    Cancels(Acc(axis, Flat(1.0), ty, tx), v);
  }

  lemma Cancels(d: real, v: real)
    requires d > 0.0
    ensures d * v / d == v
  {
  }

  /** Alpha and straight colour come out between nought and one, so the clamp to
      a byte never bites. */
  lemma ClampNeverBites(src: seq<Pixel>, axis: Axis, c: int, ty: int, tx: int)
    requires Sound(axis) && 0 <= ty < axis.m && 0 <= tx < axis.m && 0 <= c < 3
    requires Square(src, axis.n) && Premultiplied(src)
    ensures var a := Channel(src, axis, 3, ty, tx);
      var v := Straight(Channel(src, axis, c, ty, tx), a);
      0.0 <= a <= 1.0 && 0.0 <= v <= 1.0 && Byte(a) == Round(a * 255.0) && Byte(v) == Round(v * 255.0)
  {
    var colour, alpha := ChannelOf(src, axis.n, c), ChannelOf(src, axis.n, 3);
    forall y, x | 0 <= y < axis.n && 0 <= x < axis.n
      ensures Flat(0.0)(y, x) <= colour(y, x) <= alpha(y, x) <= Flat(1.0)(y, x)
    {
      ChannelsOrdered(src, axis.n, c, y, x);
    }
    MeanOrdered(axis, Flat(0.0), colour, ty, tx);
    MeanOrdered(axis, colour, alpha, ty, tx);
    MeanOrdered(axis, alpha, Flat(1.0), ty, tx);
    FlatMean(axis, 0.0, ty, tx);
    FlatMean(axis, 1.0, ty, tx);
    StraightInside(Mean(axis, colour, ty, tx), Mean(axis, alpha, ty, tx));
  }

  lemma StraightInside(colour: real, alpha: real)
    requires 0.0 <= colour <= alpha
    ensures 0.0 <= Straight(colour, alpha) <= 1.0
  {
    if alpha > 0.0 {
      DividedAtMost(colour, alpha, alpha);
      assert alpha / alpha == 1.0;
    }
  }

  /** Nothing bleeds: where every pixel, however clear, has one straight colour,
      every target pixel that shows at all has exactly that colour. */
  lemma NoBleed(src: seq<Pixel>, axis: Axis, c: int, k: real, ty: int, tx: int)
    requires Sound(axis) && 0 <= ty < axis.m && 0 <= tx < axis.m && 0 <= c < 3 && Square(src, axis.n)
    requires forall i :: 0 <= i < |src| ==> src[i][c] == src[i][3] * k
    requires Channel(src, axis, 3, ty, tx) > 0.0
    ensures Straight(Channel(src, axis, c, ty, tx), Channel(src, axis, 3, ty, tx)) == k
  {
    var colour, alpha := ChannelOf(src, axis.n, c), ChannelOf(src, axis.n, 3);
    OneColour(src, axis.n, c, k);
    NothingBleeds(axis, colour, alpha, k, ty, tx);
  }

  lemma NothingBleeds(axis: Axis, colour: Table, alpha: Table, k: real, ty: int, tx: int)
    requires Sound(axis) && 0 <= ty < axis.m && 0 <= tx < axis.m && Mean(axis, alpha, ty, tx) > 0.0
    requires forall y, x :: 0 <= y < axis.n && 0 <= x < axis.n ==> colour(y, x) == alpha(y, x) * k
    ensures Straight(Mean(axis, colour, ty, tx), Mean(axis, alpha, ty, tx)) == k
  {
    AccScaled(axis, alpha, colour, k, ty, tx);
    MeanRatio(axis, colour, alpha, k, ty, tx);
  }

  lemma OneColour(src: seq<Pixel>, n: nat, c: int, k: real)
    requires 0 <= c < 3 && Square(src, n) && forall i :: 0 <= i < |src| ==> src[i][c] == src[i][3] * k
    ensures forall y, x :: 0 <= y < n && 0 <= x < n ==> ChannelOf(src, n, c)(y, x) == ChannelOf(src, n, 3)(y, x) * k
  {
    forall y, x | 0 <= y < n && 0 <= x < n ensures ChannelOf(src, n, c)(y, x) == ChannelOf(src, n, 3)(y, x) * k {
      IndexInside(y, x, n);
    }
  }

  lemma MeanRatio(axis: Axis, colour: Table, alpha: Table, k: real, ty: int, tx: int)
    requires Sound(axis) && 0 <= ty < axis.m && 0 <= tx < axis.m
    requires Acc(axis, colour, ty, tx) == Acc(axis, alpha, ty, tx) * k && Mean(axis, alpha, ty, tx) > 0.0
    ensures Straight(Mean(axis, colour, ty, tx), Mean(axis, alpha, ty, tx)) == k
  {
    Ratio(Acc(axis, alpha, ty, tx), k, Acc(axis, Flat(1.0), ty, tx));
  }

  lemma Ratio(a: real, k: real, area: real)
    requires area > 0.0 && a / area > 0.0
    ensures (a * k / area) / (a / area) == k
  {
    assert a * k / area == (a / area) * k;
  }

  // ----- Where the bytes are -----

  /** The `i`th of the pieces of one length a sequence falls into, or nothing past
      its end. */
  function Piece(s: seq<nat>, width: nat, i: nat): seq<nat> {
    if i * width + width <= |s| then s[i * width..i * width + width] else []
  }

  lemma {:induction false} JoinedSize(part: int -> seq<nat>, count: nat, width: nat)
    requires forall i :: 0 <= i < count ==> |part(i)| == width
    ensures |Joined(part, count)| == count * width
  {
    if count > 0 {
      JoinedSize(part, count - 1, width);
      assert count * width == (count - 1) * width + width;
    }
  }

  lemma WidthsFit(i: nat, count: nat, width: nat)
    requires i < count
    ensures i * width + width <= count * width
  {
    assert (count - 1 - i) * width >= 0;
    assert (count - 1 - i) * width == count * width - width - i * width;
  }

  lemma PieceOfFront(front: seq<nat>, last: seq<nat>, width: nat, i: nat, at: nat)
    requires at == i * width && at + width <= |front|
    ensures Piece(front + last, width, i) == Piece(front, width, i)
  {
    assert (front + last)[at..at + width] == front[at..at + width];
  }

  lemma EarlierPiece(front: seq<nat>, last: seq<nat>, width: nat, i: nat, count: nat)
    requires i < count && |front| == count * width
    ensures Piece(front + last, width, i) == Piece(front, width, i)
  {
    WidthsFit(i, count, width);
    PieceOfFront(front, last, width, i, i * width);
  }

  lemma PieceOfLast(front: seq<nat>, last: seq<nat>, width: nat, i: nat)
    requires |front| == i * width && |last| == width
    ensures Piece(front + last, width, i) == last
  {
  }

  /** Each part is the piece it should be. */
  lemma {:induction false} JoinedAt(part: int -> seq<nat>, count: nat, width: nat, i: nat)
    requires i < count && forall j :: 0 <= j < count ==> |part(j)| == width
    ensures Piece(Joined(part, count), width, i) == part(i)
    decreases count
  {
    JoinedSize(part, count - 1, width);
    if i < count - 1 {
      JoinedAt(part, count - 1, width, i);
      EarlierPiece(Joined(part, count - 1), part(count - 1), width, i, count - 1);
    } else {
      PieceOfLast(Joined(part, count - 1), part(count - 1), width, i);
    }
  }

  lemma RowAt(src: seq<Pixel>, axis: Axis, ty: nat, tx: nat)
    requires Sound(axis) && ty < axis.m && tx < axis.m && Square(src, axis.n)
    ensures |RowPart(src, axis)(ty)| == axis.m * 4 && Piece(RowPart(src, axis)(ty), 4, tx) == PixelBytes(src, axis, ty, tx)
  {
    JoinedSize(PixelPart(src, axis, ty), axis.m, 4);
    JoinedAt(PixelPart(src, axis, ty), axis.m, 4, tx);
  }

  /** Row after row, and four bytes a pixel. */
  lemma PictureAt(src: seq<Pixel>, axis: Axis, ty: nat, tx: nat)
    requires Sound(axis) && ty < axis.m && tx < axis.m && Square(src, axis.n)
    ensures |PictureBytes(src, axis)| == axis.m * (axis.m * 4)
    ensures Piece(Piece(PictureBytes(src, axis), axis.m * 4, ty), 4, tx) == PixelBytes(src, axis, ty, tx)
  {
    forall y | 0 <= y < axis.m ensures |RowPart(src, axis)(y)| == axis.m * 4 {
      RowAt(src, axis, y, tx);
    }
    JoinedSize(RowPart(src, axis), axis.m, axis.m * 4);
    JoinedAt(RowPart(src, axis), axis.m, axis.m * 4, ty);
    RowAt(src, axis, ty, tx);
  }

  /** At its own size each pixel comes out where it was: its straight colours, red,
      green and blue, and its alpha. */
  lemma SamePicture(src: seq<Pixel>, n: nat, y: nat, x: nat, p: Pixel)
    requires Square(src, n) && y < n && x < n && 0 <= y * n + x < |src| && p == src[y * n + x]
    ensures Sound(AxisOf(n, n)) && |PictureBytes(src, AxisOf(n, n))| == n * (n * 4)
    ensures Piece(Piece(PictureBytes(src, AxisOf(n, n)), n * 4, y), 4, x)
         == [Byte(Straight(p[0], p[3])), Byte(Straight(p[1], p[3])), Byte(Straight(p[2], p[3])), Byte(p[3])]
  {
    AxisSound(n, n);
    PictureAt(src, AxisOf(n, n), y, x);
    SamePixel(src, n, y, x, p);
  }

  lemma SamePixel(src: seq<Pixel>, n: nat, y: nat, x: nat, p: Pixel)
    requires Square(src, n) && y < n && x < n && Sound(AxisOf(n, n)) && 0 <= y * n + x < |src| && p == src[y * n + x]
    ensures PixelBytes(src, AxisOf(n, n), y, x)
         == [Byte(Straight(p[0], p[3])), Byte(Straight(p[1], p[3])), Byte(Straight(p[2], p[3])), Byte(p[3])]
  {
    SameChannel(src, n, 0, y, x);
    SameChannel(src, n, 1, y, x);
    SameChannel(src, n, 2, y, x);
    SameChannel(src, n, 3, y, x);
  }

  lemma SameChannel(src: seq<Pixel>, n: nat, c: int, y: nat, x: nat)
    requires Square(src, n) && y < n && x < n && 0 <= c < 4 && Sound(AxisOf(n, n)) && 0 <= y * n + x < |src|
    ensures Channel(src, AxisOf(n, n), c, y, x) == src[y * n + x][c]
  {
    SameMean(n, ChannelOf(src, n, c), y, x);
    assert ChannelOf(src, n, c)(y, x) == src[y * n + x][c];
  }

  lemma SameMean(n: nat, p: Table, y: nat, x: nat)
    requires y < n && x < n && Sound(AxisOf(n, n))
    ensures Mean(AxisOf(n, n), p, y, x) == p(y, x)
  {
    SameSize(n, p, y, x);
    SameSize(n, Flat(1.0), y, x);
    ByOne(p(y, x));
  }

  lemma ByOne(v: real)
    ensures v / 1.0 == v
  {
  }

  /** A byte is the nearest there is, and a half goes up. */
  lemma ByteNearest(v: real)
    requires 0.0 <= v <= 1.0
    ensures Byte(v) <= 255 && Byte(v) as real - 0.5 <= v * 255.0 < Byte(v) as real + 0.5
  {
    var r := v * 255.0;
    assert 0.0 <= r <= 255.0;
  }
}
