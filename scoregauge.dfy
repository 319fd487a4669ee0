/** The radial score gauge: the colour band a score falls into, the single
    chart entry it draws, and the dimensions chosen by the gauge size. */
module ScoreGauge {
  import opened Types

  const Green := "#10B981"
  const Orange := "#F59E0B"
  const Red := "#DC2626"

  /** The two sizes a gauge may be drawn at. */
  datatype Size = Sm | Lg

  /** One entry of the chart's data array. */
  datatype Datum = Datum(name: string, value: int, fill: string)

  /** Everything the size decides: chart width and height, the class of the
      centred score text, the bar thickness and the chart centre. */
  datatype Layout = Layout(chartSize: int, fontSize: string, barSize: int, cx: int, cy: int)

  /** Orders the colours from the worst band to the best. */
  function Rank(fill: string): int {
    if fill == Green then 2 else if fill == Orange then 1 else 0
  }

  /** The fill colour for a score: green from 90, orange from 60 below 90,
      red below 60. Every score falls into exactly one band. */
  function Fill(score: int): (r: string)
    ensures r == Green <==> score >= 90
    ensures r == Orange <==> 60 <= score < 90
    ensures r == Red <==> score < 60
  {
    assert Green[1] != Orange[1] && Orange[1] != Red[1] && Green[1] != Red[1];
    if score >= 90 then Green else if score >= 60 then Orange else Red
  }

  /** A higher score never lands in a lower band. */
  lemma FillMonotone(lo: int, hi: int)
    requires lo <= hi
    ensures Rank(Fill(lo)) <= Rank(Fill(hi))
  {
  }

  /** An omitted size is the small one. */
  function SizeOrDefault(size: Option<Size>): (r: Size)
    ensures size.None? ==> r == Sm
    ensures size.Some? ==> r == size.value
  {
    if size.Some? then size.value else Sm
  }

  /** The chart data: a single entry carrying the score and its band colour. */
  function ChartData(score: int): (r: seq<Datum>)
    ensures |r| == 1 && r[0].value == score && r[0].fill == Fill(score)
    ensures r[0].name == "score"
  {
    [Datum("score", score, Fill(score))]
  }

  /** The dimensions for the given (possibly omitted) size: the large gauge
      is 180 wide with 15-wide bars and `text-5xl`, every other one is 100
      wide with 8-wide bars and `text-2xl`; the centre is the middle of the
      square chart. */
  function GaugeLayout(size: Option<Size>): (r: Layout)
    ensures SizeOrDefault(size) == Lg ==> r.chartSize == 180 && r.barSize == 15 && r.fontSize == "text-5xl"
    ensures SizeOrDefault(size) != Lg ==> r.chartSize == 100 && r.barSize == 8 && r.fontSize == "text-2xl"
    ensures r.cx * 2 == r.chartSize && r.cy == r.cx
  {
    var s := SizeOrDefault(size);
    var chartSize := if s == Lg then 180 else 100;
    Layout(chartSize, if s == Lg then "text-5xl" else "text-2xl",
           if s == Lg then 15 else 8, chartSize / 2, chartSize / 2)
  }
}
