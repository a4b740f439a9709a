/**
 * The home grid of `render_home`: one card per watchlist ticker with its last
 * price, its percentage change, a status band and a sparkline of recent closes.
 */
module Home {
  import opened Wrappers
  import opened Series

  /** `make_sparkline`'s default box, the only one the grid uses. */
  const SparkWidth: real := 80.0
  const SparkHeight: real := 30.0

  /** How many of the latest closes a sparkline shows (`tolist()[-50:]`). */
  const SparkCloses: nat := 50

  /** A change beyond this many percent, either way, is no longer shown as static. */
  const BandThreshold: real := 0.05

  /** The watchlist, in grid order. */
  const Stocks: seq<string> := ["AAPL", "TSLA", "NVDA", "GOOGL", "MSFT", "AMZN", "META", "NFLX",
                                "BTC-USD", "RELIANCE.NS", "TCS.NS", "HDFCBANK.NS"]

  // ------------------------------------------------------------ sparkline

  datatype Point = Point(x: real, y: real)

  /** The vertical range: max - min, or 1 when all values are equal. */
  function SparkRange(data: seq<real>): (r: real)
    requires |data| > 0
    ensures r > 0.0
  {
    if Max(data) != Min(data) then Max(data) - Min(data) else 1.0
  }

  /** x of point i of n: the points are spread evenly across the width. */
  function SparkX(n: nat, i: nat, width: real): real
    requires 2 <= n
  {
    (i as real / (n - 1) as real) * width
  }

  /** y of a value v, given the lowest value and the range: higher values nearer the top edge (y = 0). */
  function ScaleY(v: real, lo: real, range: real, height: real): real
    requires range > 0.0
  {
    height - ((v - lo) / range) * height
  }

  function SparkY(data: seq<real>, i: nat, height: real): real
    requires 2 <= |data| && i < |data|
  {
    ScaleY(data[i], Min(data), SparkRange(data), height)
  }

  function SparkPoint(data: seq<real>, i: nat, width: real, height: real): Point
    requires 2 <= |data| && i < |data|
  {
    Point(SparkX(|data|, i, width), SparkY(data, i, height))
  }

  /** The polyline of `make_sparkline`, before it is formatted; empty (the "" result) for fewer than two values. */
  function Sparkline(data: seq<real>, width: real, height: real): (points: seq<Point>)
    ensures |points| == if |data| < 2 then 0 else |data|
  {
    if |data| < 2 then []
    else seq(|data|, i requires 0 <= i < |data| => SparkPoint(data, i, width, height))
  }

  /** `make_sparkline`: the `for i, val in enumerate(data_list)` loop that appends the points. */
  method MakeSparkline(data: seq<real>, width: real, height: real) returns (points: seq<Point>)
    ensures points == Sparkline(data, width, height)
  {
    if |data| < 2 {
      return [];
    }
    var minVal, maxVal := Min(data), Max(data);
    var rangeVal := if maxVal != minVal then maxVal - minVal else 1.0;
    assert rangeVal == SparkRange(data);
    points := [];
    var i := 0;
    while i < |data|
      invariant 0 <= i <= |data|
      invariant |points| == i
      invariant forall j {:trigger points[j]} :: 0 <= j < i ==> points[j] == SparkPoint(data, j, width, height)
    {
      var x := (i as real / (|data| - 1) as real) * width;
      var y := height - ((data[i] - minVal) / rangeVal) * height;
      assert Point(x, y) == SparkPoint(data, i, width, height);
      points := points + [Point(x, y)];
      i := i + 1;
    }
    assert forall j :: 0 <= j < |data| ==> points[j] == Sparkline(data, width, height)[j];
  }

  /** Point i of a sparkline of at least two values. */
  lemma SparklineAt(data: seq<real>, width: real, height: real, i: nat)
    requires |data| >= 2 && i < |data|
    ensures |Sparkline(data, width, height)| == |data|
    ensures Sparkline(data, width, height)[i] == SparkPoint(data, i, width, height)
  {
  }

  lemma UnitFraction(a: real, d: real)
    requires 0.0 <= a <= d && d > 0.0
    ensures 0.0 <= a / d <= 1.0
  {
    assert (a / d) * d == a;
  }

  lemma FractionIncreasing(a: real, b: real, d: real)
    requires a < b && d > 0.0
    ensures a / d < b / d
  {
    assert (b / d - a / d) * d == b - a;
  }

  lemma SparkXEnds(n: nat, width: real)
    requires 2 <= n
    ensures SparkX(n, 0, width) == 0.0 && SparkX(n, n - 1, width) == width
  {
    var d := (n - 1) as real;
    assert d / d == 1.0;
  }

  lemma SparkXIncreasing(n: nat, i: nat, j: nat, width: real)
    requires 2 <= n && i < j && width > 0.0
    ensures SparkX(n, i, width) < SparkX(n, j, width)
  {
    var d := (n - 1) as real;
    var p, q := i as real / d, j as real / d;
    FractionIncreasing(i as real, j as real, d);
    assert q * width - p * width == (q - p) * width;
  }

  /** One point per value, the first at x = 0 and the last at x = width. */
  lemma SparklineEnds(data: seq<real>, width: real, height: real)
    requires |data| >= 2
    ensures |Sparkline(data, width, height)| == |data|
    ensures Sparkline(data, width, height)[0].x == 0.0
    ensures Sparkline(data, width, height)[|data| - 1].x == width
  {
    SparkXEnds(|data|, width);
  }

  /** With a positive width, x strictly increases from one point to the next. */
  lemma SparklineXIncreasing(data: seq<real>, width: real, height: real, i: nat, j: nat)
    requires |data| >= 2 && i < j < |data| && width > 0.0
    ensures Sparkline(data, width, height)[i].x < Sparkline(data, width, height)[j].x
  {
    SparkXIncreasing(|data|, i, j, width);
  }

  /** Fewer than two values give no sparkline. */
  lemma SparklineEmpty(data: seq<real>, width: real, height: real)
    ensures Sparkline(data, width, height) == [] <==> |data| < 2
  {
    if |data| >= 2 {
      assert |Sparkline(data, width, height)| == |data|;
    }
  }

  lemma ScaleYInside(v: real, lo: real, range: real, height: real)
    requires range > 0.0 && 0.0 <= v - lo <= range && height >= 0.0
    ensures 0.0 <= ScaleY(v, lo, range, height) <= height
  {
    var t := (v - lo) / range;
    UnitFraction(v - lo, range);
    assert height - t * height == (1.0 - t) * height;
  }

  lemma ScaleYEnds(lo: real, range: real, height: real)
    requires range > 0.0
    ensures ScaleY(lo, lo, range, height) == height
    ensures ScaleY(lo + range, lo, range, height) == 0.0
  {
    assert (lo + range - lo) / range == 1.0;
  }

  lemma ScaleYOrder(a: real, b: real, lo: real, range: real, height: real)
    requires range > 0.0 && height > 0.0
    ensures a <= b <==> ScaleY(b, lo, range, height) <= ScaleY(a, lo, range, height)
  {
    var s, t := (a - lo) / range, (b - lo) / range;
    if a < b {
      FractionIncreasing(a - lo, b - lo, range);
      assert t * height - s * height == (t - s) * height;
    } else if b < a {
      FractionIncreasing(b - lo, a - lo, range);
      assert s * height - t * height == (s - t) * height;
    }
  }

  /** Every point lies inside the box vertically: 0 <= y <= height. */
  lemma SparklineInsideBox(data: seq<real>, width: real, height: real, i: nat)
    requires |data| >= 2 && i < |data| && height >= 0.0
    ensures 0.0 <= Sparkline(data, width, height)[i].y <= height
  {
    ScaleYInside(data[i], Min(data), SparkRange(data), height);
  }

  /** The lowest value sits on the bottom edge and, unless all are equal, the highest on the top edge. */
  lemma SparklineExtremes(data: seq<real>, width: real, height: real, i: nat)
    requires |data| >= 2 && i < |data|
    ensures data[i] == Min(data) ==> Sparkline(data, width, height)[i].y == height
    ensures data[i] == Max(data) && Max(data) != Min(data) ==> Sparkline(data, width, height)[i].y == 0.0
  {
    var lo, hi, r := Min(data), Max(data), SparkRange(data);
    ScaleYEnds(lo, r, height);
    SparklineAt(data, width, height, i);
    if hi != lo {
      assert lo + r == hi;
    }
  }

  /** A flat series does not divide by zero: every point is drawn on the bottom edge. */
  lemma SparklineFlat(data: seq<real>, width: real, height: real, i: nat)
    requires |data| >= 2 && i < |data|
    requires forall j :: 0 <= j < |data| ==> data[j] == data[0]
    ensures SparkRange(data) == 1.0
    ensures Sparkline(data, width, height)[i].y == height
  {
    assert Min(data) == data[0] && Max(data) == data[0];
    ScaleYEnds(Min(data), SparkRange(data), height);
  }

  /** With a positive height, a higher value is drawn higher (smaller y), and equal values level. */
  lemma SparklineOrder(data: seq<real>, width: real, height: real, i: nat, j: nat)
    requires |data| >= 2 && i < |data| && j < |data| && height > 0.0
    ensures data[i] <= data[j] <==> Sparkline(data, width, height)[j].y <= Sparkline(data, width, height)[i].y
  {
    ScaleYOrder(data[i], data[j], Min(data), SparkRange(data), height);
  }

  // ---------------------------------------------------------- status band

  /** `pct_change` as numpy computes it: a zero previous close gives an infinity or NaN, not an error. */
  datatype Change = Finite(pct: real) | PlusInfinity | MinusInfinity | NotANumber

  function PctChange(last: real, prev: real): (c: Change)
    ensures c.Finite? <==> prev != 0.0
    ensures c == PlusInfinity <==> prev == 0.0 && last > 0.0
    ensures c == MinusInfinity <==> prev == 0.0 && last < 0.0
    ensures c == NotANumber <==> prev == 0.0 && last == 0.0
  {
    if prev != 0.0 then Finite((last - prev) / prev * 100.0)
    else if last > 0.0 then PlusInfinity
    else if last < 0.0 then MinusInfinity
    else NotANumber
  }

  /** The card's arrow and colour: ▼ red, ▲ green, ● yellow. */
  datatype Band = Down | Up | Static

  function BandOf(c: Change): (b: Band)
    ensures c == PlusInfinity ==> b == Up
    ensures c == MinusInfinity ==> b == Down
    ensures c == NotANumber ==> b == Static
    ensures c.Finite? ==> (b == Static <==> -BandThreshold <= c.pct <= BandThreshold)
  {
    match c
    case Finite(p) => if p < -BandThreshold then Down else if p > BandThreshold then Up else Static
    case PlusInfinity => Up
    case MinusInfinity => Down
    case NotANumber => Static
  }

  /**
   * Below -0.05 is down, above 0.05 is up, and the closed interval between,
   * both thresholds included, is static; so exactly one band applies.
   */
  lemma BandThresholds(p: real)
    ensures BandOf(Finite(p)) == Down <==> p < -0.05
    ensures BandOf(Finite(p)) == Up <==> p > 0.05
    ensures BandOf(Finite(p)) == Static <==> -0.05 <= p <= 0.05
  {
  }

  /**
   * For a positive previous close the band follows the direction of the move;
   * an unchanged price is static whatever the previous close.
   */
  lemma BandFollowsPrice(last: real, prev: real)
    ensures prev > 0.0 && BandOf(PctChange(last, prev)) == Up ==> last > prev
    ensures prev > 0.0 && BandOf(PctChange(last, prev)) == Down ==> last < prev
    ensures last == prev ==> BandOf(PctChange(last, prev)) == Static
    ensures prev > 0.0 && last * 2000.0 > prev * 2001.0 ==> BandOf(PctChange(last, prev)) == Up
    ensures prev > 0.0 && last * 2000.0 < prev * 1999.0 ==> BandOf(PctChange(last, prev)) == Down
  {
    if prev > 0.0 {
      PctChangeValue(last, prev);
      var p := PctChange(last, prev).pct;
      PctOutsideBand(p, last, prev);
      if BandOf(PctChange(last, prev)) == Up || BandOf(PctChange(last, prev)) == Down {
        var q := (last - prev) / prev;
        assert q * prev == last - prev;
      }
    }
  }

  /** The card's finite change is the percentage move from the previous close to the last. */
  lemma PctChangeValue(last: real, prev: real)
    requires prev != 0.0
    ensures PctChange(last, prev).pct * prev == (last - prev) * 100.0
  {
    var q := (last - prev) / prev;
    assert q * prev == last - prev;
  }

  /** A rise of more than 0.05 % of a positive base gives a percentage above 0.05, a fall below -0.05. */
  lemma PctOutsideBand(p: real, last: real, prev: real)
    requires prev > 0.0 && p * prev == (last - prev) * 100.0
    ensures last * 2000.0 > prev * 2001.0 ==> p > 0.05
    ensures last * 2000.0 < prev * 1999.0 ==> p < -0.05
  {
    assert (p - 0.05) * prev == (last - prev) * 100.0 - 0.05 * prev;
    assert (p + 0.05) * prev == (last - prev) * 100.0 + 0.05 * prev;
  }

  // ---------------------------------------------------------------- cards

  /** A card's figures: `price` None is shown as "---". */
  datatype Card = Card(price: Option<real>, change: Change, sparkline: seq<Point>)

  /** The card shown without live data: "---", 0.0 %, no sparkline. */
  const DefaultCard: Card := Card(None, Finite(0.0), [])

  /**
   * The closes of one ticker in the overview download after `dropna()`, or None
   * when the download failed or has no column for the ticker.
   */
  function History(marketData: Option<map<string, seq<real>>>, ticker: string): Option<seq<real>>
  {
    if marketData.Some? && ticker in marketData.value then Some(marketData.value[ticker]) else None
  }

  /**
   * One card. With a single close, `iloc[-2]` raises before anything is set,
   * so the card keeps its defaults, as it does without data.
   */
  function CardFor(history: Option<seq<real>>): (card: Card)
    ensures card.price.None? <==> history.None? || |history.value| < 2
    ensures card.price.None? ==> card == DefaultCard
    ensures card.price.Some? ==> card.price.value == history.value[|history.value| - 1]
  {
    if history.None? || |history.value| < 2 then DefaultCard
    else
      var h := history.value;
      var last, prev := h[|h| - 1], h[|h| - 2];
      Card(Some(last), PctChange(last, prev), Sparkline(Tail(h, SparkCloses), SparkWidth, SparkHeight))
  }

  /** Missing or too short data shows "---" with a static band and no sparkline. */
  lemma CardFallback(history: Option<seq<real>>)
    requires history.None? || |history.value| < 2
    ensures CardFor(history).price.None?
    ensures BandOf(CardFor(history).change) == Static
    ensures CardFor(history).sparkline == []
  {
  }

  /**
   * With two or more closes the card shows the last one, and its sparkline has
   * one point per close among the last 50, in order: a later close that is
   * higher is drawn higher.
   */
  lemma CardShowsRecentCloses(h: seq<real>, i: nat, j: nat)
    requires |h| >= 2
    requires i < |Tail(h, SparkCloses)| && j < |Tail(h, SparkCloses)|
    ensures CardFor(Some(h)).price == Some(h[|h| - 1])
    ensures var t := Tail(h, SparkCloses);
      var s := CardFor(Some(h)).sparkline;
      && t == h[|h| - |t|..]
      && |s| == |t|
      && (t[i] <= t[j] <==> s[j].y <= s[i].y)
  {
    var t := Tail(h, SparkCloses);
    assert CardFor(Some(h)).sparkline == Sparkline(t, SparkWidth, SparkHeight);
    SparklineEnds(t, SparkWidth, SparkHeight);
    SparklineOrder(t, SparkWidth, SparkHeight, i, j);
  }

  /**
   * The body of `render_home`'s loop for one ticker: defaults first, then the
   * live figures when there are at least two closes.
   */
  method RenderCard(history: Option<seq<real>>) returns (card: Card)
    ensures card == CardFor(history)
  {
    var currentPrice: Option<real> := None;
    var pctChange := Finite(0.0);
    var sparkline: seq<Point> := [];
    if history.Some? {
      var stockHist := history.value;
      if |stockHist| >= 2 {
        var lastPrice, prevPrice := stockHist[|stockHist| - 1], stockHist[|stockHist| - 2];
        pctChange := PctChange(lastPrice, prevPrice);
        currentPrice := Some(lastPrice);
        sparkline := MakeSparkline(Tail(stockHist, SparkCloses), SparkWidth, SparkHeight);
        LiveCard(stockHist);
      }
    }
    card := Card(currentPrice, pctChange, sparkline);
  }

  /** The card of a history with at least two closes, spelled out. */
  lemma LiveCard(h: seq<real>)
    requires |h| >= 2
    ensures CardFor(Some(h))
         == Card(Some(h[|h| - 1]), PctChange(h[|h| - 1], h[|h| - 2]), Sparkline(Tail(h, SparkCloses), SparkWidth, SparkHeight))
  {
  }

  /** The loop of `render_home` over a list of tickers, one card per ticker in order. */
  method RenderCards(tickers: seq<string>, marketData: Option<map<string, seq<real>>>) returns (cards: seq<Card>)
    ensures |cards| == |tickers|
    ensures forall i :: 0 <= i < |tickers| ==> cards[i] == CardFor(History(marketData, tickers[i]))
  {
    cards := [];
    var i := 0;
    while i < |tickers|
      invariant 0 <= i <= |tickers|
      invariant |cards| == i
      invariant forall j {:trigger cards[j]} :: 0 <= j < i ==> cards[j] == CardFor(History(marketData, tickers[j]))
    {
      var card := RenderCard(History(marketData, tickers[i]));
      cards := cards + [card];
      assert cards[i] == CardFor(History(marketData, tickers[i]));
      i := i + 1;
    }
  }

  /** `render_home`'s grid: one card per watchlist ticker, in watchlist order. */
  method RenderHome(marketData: Option<map<string, seq<real>>>) returns (cards: seq<Card>)
    ensures |cards| == |Stocks|
    ensures forall i :: 0 <= i < |Stocks| ==> cards[i] == CardFor(History(marketData, Stocks[i]))
  {
    cards := RenderCards(Stocks, marketData);
  }
}
