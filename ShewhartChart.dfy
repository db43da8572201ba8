/**
 * The per-point classification of the standalone ShewhartChart component: the
 * control limits, the colour band of each point and its in/out-of-range status,
 * and the rows that component's own line chart and Name/Value/Status table are
 * drawn from. The rule-panel dashboard's chart and data table do not use it.
 */
module ShewhartChart {
  import opened Series

  /** Colour bands: within 1 sigma, 2 sigma, 3 sigma, and beyond 3 sigma. */
  datatype Color = Orange | Blue | Green | Red

  datatype Status = Okay | OutOfRange

  /** Lower and upper control limits. */
  datatype Limits = Limits(lcl: real, ucl: real)

  /** One row of the chart: the 1-based sample number, the sample, and its classification. */
  datatype ChartPoint = ChartPoint(index: nat, name: string, value: real, color: Color, status: Status)

  /** LCL and UCL lie three standard deviations either side of the mean. */
  function ControlLimits(mean: real, stdDev: real): (limits: Limits)
    ensures (limits.lcl + limits.ucl) / 2.0 == mean
    ensures limits.ucl - limits.lcl == 6.0 * stdDev
  {
    Limits(mean - 3.0 * stdDev, mean + 3.0 * stdDev)
  }

  /**
   * The colour band of a value by its distance from the mean. A distance that
   * falls exactly on a boundary goes to the inner band.
   */
  function GetColor(value: real, mean: real, stdDev: real): (color: Color)
    ensures color == Orange <==> Abs(value - mean) <= stdDev
    ensures color == Blue <==> stdDev < Abs(value - mean) <= 2.0 * stdDev
    ensures color == Green <==> 2.0 * stdDev < Abs(value - mean) <= 3.0 * stdDev
    ensures color == Red <==> Abs(value - mean) > 3.0 * stdDev
  {
    var diff := Abs(value - mean);
    if diff <= 1.0 * stdDev then Orange
    else if diff <= 2.0 * stdDev then Blue
    else if diff <= 3.0 * stdDev then Green
    else Red
  }

  /** A value is out of range when it lies below the LCL or above the UCL. */
  function IsOutOfRange(value: real, mean: real, stdDev: real): (out: bool)
    ensures out <==> Abs(value - mean) > 3.0 * stdDev
  {
    var limits := ControlLimits(mean, stdDev);
    value < limits.lcl || value > limits.ucl
  }

  function StatusOf(value: real, mean: real, stdDev: real): Status
  {
    if IsOutOfRange(value, mean, stdDev) then OutOfRange else Okay
  }

  /** The colour and the status agree: a point is red exactly when it is out of range. */
  lemma RedIffOutOfRange(value: real, mean: real, stdDev: real)
    ensures GetColor(value, mean, stdDev) == Red <==> StatusOf(value, mean, stdDev) == OutOfRange
  {
  }

  /** How far out a colour band lies: 0 for the innermost band, 3 for beyond 3 sigma. */
  function Rank(color: Color): nat
  {
    match color
    case Orange => 0
    case Blue => 1
    case Green => 2
    case Red => 3
  }

  /** A point further from the mean never gets an inner colour than a closer one. */
  lemma ColorMonotone(v: real, w: real, mean: real, stdDev: real)
    requires Abs(v - mean) <= Abs(w - mean)
    ensures Rank(GetColor(v, mean, stdDev)) <= Rank(GetColor(w, mean, stdDev))
  {
  }

  /** One row of the table: sample number, label and value of the point, its colour and status. */
  function ClassifyPoint(p: Point, index: nat, mean: real, stdDev: real): ChartPoint
  {
    ChartPoint(index, p.name, p.value, GetColor(p.value, mean, stdDev), StatusOf(p.value, mean, stdDev))
  }

  /**
   * The rows ShewhartChart's own line chart and status table are drawn from,
   * one per sample, in order.
   */
  function ChartData(data: seq<Point>, mean: real, stdDev: real): (rows: seq<ChartPoint>)
    ensures |rows| == |data|
    ensures forall i :: 0 <= i < |data| ==>
      rows[i].index == i + 1 && rows[i].name == data[i].name && rows[i].value == data[i].value
    ensures forall i :: 0 <= i < |data| ==>
      (rows[i].color == Red <==> rows[i].status == OutOfRange)
    ensures forall i :: 0 <= i < |data| ==>
      rows[i].color == GetColor(data[i].value, mean, stdDev) && rows[i].status == StatusOf(data[i].value, mean, stdDev)
  {
    seq(|data|, i requires 0 <= i < |data| => ClassifyPoint(data[i], i + 1, mean, stdDev))
  }

  /** The samples a table was built from: its label and value columns. */
  function Samples(rows: seq<ChartPoint>): (data: seq<Point>)
    ensures |data| == |rows|
  {
    if rows == [] then [] else [Point(rows[0].name, rows[0].value)] + Samples(rows[1..])
  }

  lemma {:induction false} SamplesAt(rows: seq<ChartPoint>, k: nat)
    requires k < |rows|
    ensures Samples(rows)[k] == Point(rows[k].name, rows[k].value)
  {
    if k > 0 {
      SamplesAt(rows[1..], k - 1);
    }
  }

  /** Building the table loses nothing: its label and value columns give back the series. */
  lemma ChartDataRoundTrip(data: seq<Point>, mean: real, stdDev: real)
    ensures Samples(ChartData(data, mean, stdDev)) == data
  {
    var rows := ChartData(data, mean, stdDev);
    forall k | 0 <= k < |data|
      ensures Samples(rows)[k] == data[k]
    {
      SamplesAt(rows, k);
    }
  }

  /**
   * A point's colour and status depend only on its own value (and the mean and
   * standard deviation), never on its neighbours or its position.
   */
  lemma ClassificationIsLocal(data: seq<Point>, other: seq<Point>, i: nat, j: nat, mean: real, stdDev: real)
    requires i < |data| && j < |other|
    requires data[i].value == other[j].value
    ensures ChartData(data, mean, stdDev)[i].color == ChartData(other, mean, stdDev)[j].color
    ensures ChartData(data, mean, stdDev)[i].status == ChartData(other, mean, stdDev)[j].status
  {
  }
}
