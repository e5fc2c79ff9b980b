/**
 * The simulator page (dashboard_simulator.jsx): every two seconds it
 * classifies a (temperature, humidity, gas) reading into a status tier,
 * clamps the reading into the display ranges, raises the alert flag for
 * any non-normal status and appends a point to a 30-point history. The
 * random sensor model and the timer are left out: the raw reading is an
 * input of each tick.
 */
module Simulator {

  import opened Display
  import opened HistoryWindow

  /** The three statuses the page produces: 'normal', 'warning', 'critical'. */
  datatype Tier = Normal | Warning | Critical

  function TierRank(t: Tier): (r: nat)
    ensures r <= 2
  {
    match t
    case Normal => 0
    case Warning => 1
    case Critical => 2
  }

  // Thresholds of the simulator; every comparison against them is strict.
  const TempWarning: real := 35.0
  const TempCritical: real := 40.0
  const HumiLow: real := 30.0
  const HumiHigh: real := 70.0
  const GasWarning: int := 2000
  const GasCritical: int := 3000

  /** The status of a raw reading, critical conditions checked first. */
  function Classify(temp: real, humi: real, gas: int): (t: Tier)
    ensures t == Normal <==> temp <= TempWarning && HumiLow <= humi <= HumiHigh && gas <= GasWarning
  {
    if temp > TempCritical || gas > GasCritical then Critical
    else if temp > TempWarning || humi < HumiLow || humi > HumiHigh || gas > GasWarning then Warning
    else Normal
  }

  /**
   * Each tier in declarative form: critical exactly for a critical breach,
   * warning exactly for a warning breach without a critical one, normal
   * exactly when every channel is inside its warning limits.
   */
  lemma ClassifyCases(temp: real, humi: real, gas: int)
    ensures Classify(temp, humi, gas) == Critical <==> temp > 40.0 || gas > 3000
    ensures Classify(temp, humi, gas) == Warning <==>
      !(temp > 40.0 || gas > 3000) && (temp > 35.0 || humi < 30.0 || humi > 70.0 || gas > 2000)
    ensures Classify(temp, humi, gas) == Normal <==>
      temp <= 35.0 && 30.0 <= humi <= 70.0 && gas <= 2000
  {
  }

  /**
   * The comparisons are strict: a reading exactly on a critical limit is
   * not critical, and humidity exactly on either end of its band counts
   * as inside it.
   */
  lemma ClassifyBoundaries(temp: real, humi: real, gas: int)
    ensures temp <= 40.0 && gas <= 3000 ==> Classify(temp, humi, gas) != Critical
    ensures Classify(40.0, 50.0, 3000) == Warning
    ensures Classify(35.0, 50.0, 2000) == Normal
    ensures Classify(temp, 30.0, gas) == Classify(temp, 50.0, gas)
    ensures Classify(temp, 70.0, gas) == Classify(temp, 50.0, gas)
  {
  }

  /** How far humidity lies outside the comfortable band [30, 70]. */
  function HumiDeviation(humi: real): (d: real)
    ensures d >= 0.0
    ensures d == 0.0 <==> HumiLow <= humi <= HumiHigh
  {
    if humi < HumiLow then HumiLow - humi
    else if humi > HumiHigh then humi - HumiHigh
    else 0.0
  }

  /**
   * Raising temperature or gas, or moving humidity further outside its
   * band, never lowers the status.
   */
  lemma ClassifyMonotone(t1: real, h1: real, g1: int, t2: real, h2: real, g2: int)
    requires t1 <= t2 && g1 <= g2 && HumiDeviation(h1) <= HumiDeviation(h2)
    ensures TierRank(Classify(t1, h1, g1)) <= TierRank(Classify(t2, h2, g2))
  {
  }

  // The range each channel is clamped into before it is displayed.
  const TempMin: real := 20.0
  const TempMax: real := 50.0
  const HumiMin: real := 20.0
  const HumiMax: real := 90.0
  const GasMin: int := 0
  const GasMax: int := 4095

  function ClampTemp(temp: real): (r: real)
    ensures TempMin <= r <= TempMax && (TempMin <= temp <= TempMax ==> r == temp)
  {
    Clamp(TempMin, TempMax, temp)
  }

  function ClampHumi(humi: real): (r: real)
    ensures HumiMin <= r <= HumiMax && (HumiMin <= humi <= HumiMax ==> r == humi)
  {
    Clamp(HumiMin, HumiMax, humi)
  }

  function ClampGas(gas: int): (r: int)
    ensures GasMin <= r <= GasMax && (GasMin <= gas <= GasMax ==> r == gas)
  {
    ClampInt(GasMin, GasMax, gas)
  }

  /** The colour of the temperature figure (`getTempColor`). */
  function TempColour(temp: real): (c: Colour)
    ensures c == Red <==> temp > 40.0
    ensures c == Yellow <==> 35.0 < temp <= 40.0
    ensures c == Green <==> temp <= 35.0
  {
    if temp > TempCritical then Red
    else if temp > TempWarning then Yellow
    else Green
  }

  /** The colour of the humidity figure (`getHumiColor`): never red. */
  function HumiColour(humi: real): (c: Colour)
    ensures c != Red
    ensures c == Yellow <==> humi < HumiLow || humi > HumiHigh
  {
    if humi < HumiLow || humi > HumiHigh then Yellow else Green
  }

  /** The colour of the gas figure (`getGasColor`). */
  function GasColour(gas: int): (c: Colour)
    ensures c == Red <==> gas > 3000
    ensures c == Yellow <==> 2000 < gas <= 3000
    ensures c == Green <==> gas <= 2000
  {
    if gas > GasCritical then Red
    else if gas > GasWarning then Yellow
    else Green
  }

  /** The most severe of the three figure colours. */
  function WorstChannel(temp: real, humi: real, gas: int): Colour
  {
    MaxColour(MaxColour(TempColour(temp), HumiColour(humi)), GasColour(gas))
  }

  /** The banner colour for a status (`getStatusColor`). */
  function StatusColour(t: Tier): (c: Colour)
    ensures Rank(c) == TierRank(t)
  {
    match t
    case Critical => Red
    case Warning => Yellow
    case Normal => Green
  }

  /** The banner emoji for a status (`getStatusEmoji`). */
  function StatusEmoji(t: Tier): (s: string)
    ensures t == Critical <==> s == "🔴"
    ensures t == Warning <==> s == "⚠️"
    ensures t == Normal <==> s == "✅"
  {
    match t
    case Critical => "🔴"
    case Warning => "⚠️"
    case Normal => "✅"
  }

  /** The banner text for a status (`getStatusText`). */
  function StatusText(t: Tier): (s: string)
    ensures t == Critical <==> s == "CRITICAL!"
    ensures t == Warning <==> s == "WARNING"
    ensures t == Normal <==> s == "NORMAL"
  {
    match t
    case Critical => "CRITICAL!"
    case Warning => "WARNING"
    case Normal => "NORMAL"
  }

  /**
   * The banner tells the statuses apart: its colour, its emoji and its
   * text each determine the status, and the colour ranks like the status.
   */
  lemma BannerIdentifiesStatus(a: Tier, b: Tier)
    ensures StatusColour(a) == StatusColour(b) ==> a == b
    ensures StatusEmoji(a) == StatusEmoji(b) ==> a == b
    ensures StatusText(a) == StatusText(b) ==> a == b
    ensures Rank(StatusColour(a)) == TierRank(a)
  {
  }

  /**
   * The status is the worst of the per-channel colours: the classifier
   * and the three colour helpers apply the same thresholds.
   */
  lemma StatusIsWorstChannel(temp: real, humi: real, gas: int)
    ensures StatusColour(Classify(temp, humi, gas)) == WorstChannel(temp, humi, gas)
  {
  }

  /**
   * Clamping never changes a channel's colour, because every threshold
   * lies strictly inside its clamp range.
   */
  lemma ClampKeepsColours(temp: real, humi: real, gas: int)
    ensures TempColour(ClampTemp(temp)) == TempColour(temp)
    ensures HumiColour(ClampHumi(humi)) == HumiColour(humi)
    ensures GasColour(ClampGas(gas)) == GasColour(gas)
  {
  }

  /** The page's `data`: the clamped reading and the status of the raw one. */
  datatype Sample = Sample(temperature: real, humidity: real, gas: int, status: Tier)

  ghost predicate InDisplayRange(s: Sample)
  {
    TempMin <= s.temperature <= TempMax &&
    HumiMin <= s.humidity <= HumiMax &&
    GasMin <= s.gas <= GasMax
  }

  /** What the figures show agrees with what the banner shows. */
  ghost predicate ColoursAgree(s: Sample)
  {
    StatusColour(s.status) == WorstChannel(s.temperature, s.humidity, s.gas)
  }

  /**
   * The sample a tick stores: it lies in the display ranges, and although
   * the status was computed from the raw reading, the figure colours of
   * the clamped values agree with it.
   */
  function NewData(temp: real, humi: real, gas: int): (s: Sample)
    ensures InDisplayRange(s)
    ensures s.status == Classify(temp, humi, gas)
    ensures ColoursAgree(s)
    ensures s.temperature == ClampTemp(temp) && s.humidity == ClampHumi(humi) && s.gas == ClampGas(gas)
  {
    ClampKeepsColours(temp, humi, gas);
    StatusIsWorstChannel(temp, humi, gas);
    Sample(ClampTemp(temp), ClampHumi(humi), ClampGas(gas), Classify(temp, humi, gas))
  }

  /** A history point; gas is stored divided by 41. */
  datatype Point = Point(temp: real, humi: real, gas: real)

  /** The point a tick adds: the displayed values, gas divided by 41. */
  function PointOf(s: Sample): (p: Point)
    ensures TooltipGas(p) == s.gas
    ensures InDisplayRange(s) ==> BarsInRange(p)
  {
    Point(s.temperature, s.humidity, s.gas as real / 41.0)
  }

  /** The tooltip under a gas bar, `Math.floor(item.gas * 41)`. */
  function TooltipGas(p: Point): (g: int)
    ensures g as real <= p.gas * 41.0 < g as real + 1.0
  {
    Floor(p.gas * 41.0)
  }

  /** Height in percent of a temperature bar, `(item.temp / 50) * 100`: uncapped. */
  function TempBarHeight(p: Point): (h: real)
    ensures TempMin <= p.temp <= TempMax ==> 40.0 <= h <= 100.0
  {
    p.temp / 50.0 * 100.0
  }

  /** Height in percent of a gas bar, `item.gas`: the stored value itself, uncapped. */
  function GasBarHeight(p: Point): (h: real)
    ensures GasMin as real <= p.gas * 41.0 <= GasMax as real ==> 0.0 <= h < 100.0
  {
    p.gas
  }

  ghost predicate BarsInRange(p: Point)
  {
    0.0 <= TempBarHeight(p) <= 100.0 && 0.0 <= GasBarHeight(p) <= 100.0
  }

  /** Over the reals, the tooltip gives back the gas value of the sample. */
  lemma TooltipRecoversGas(s: Sample)
    ensures TooltipGas(PointOf(s)) == s.gas
  {
  }

  /**
   * The history bars are not capped, yet a point made from a sample in
   * the display ranges never draws a bar above 100 percent.
   */
  lemma PointBarsInRange(s: Sample)
    requires InDisplayRange(s)
    ensures BarsInRange(PointOf(s))
    ensures TempBarHeight(PointOf(s)) >= 40.0
  {
  }

  /** Every point of the window draws its bars within 100 percent. */
  ghost predicate AllBarsInRange(h: seq<Point>)
  {
    forall i :: 0 <= i < |h| ==> BarsInRange(h[i])
  }

  /** Pushing a point whose bars are in range keeps every bar of the window in range. */
  lemma PushKeepsBars(h: seq<Point>, p: Point)
    requires AllBarsInRange(h) && BarsInRange(p)
    ensures AllBarsInRange(PushThenTrim29(h, p))
  {
  }

  /** The state the page keeps between ticks. */
  class Dashboard {
    var data: Sample
    var alertActive: bool
    var history: seq<Point>

    ghost predicate Valid()
      reads this
    {
      InDisplayRange(data) && ColoursAgree(data) &&
      (alertActive ==> data.status != Normal) &&
      |history| <= Capacity && AllBarsInRange(history)
    }

    /** The page's initial state. */
    constructor ()
      ensures Valid()
      ensures data == Sample(25.0, 50.0, 500, Normal)
      ensures !alertActive && history == []
    {
      data := Sample(25.0, 50.0, 500, Normal);
      alertActive := false;
      history := [];
    }

    /** One timer tick with the raw reading (temp, humi, gas). */
    method Tick(temp: real, humi: real, gas: int)
      requires Valid()
      modifies this
      ensures Valid()
      ensures data == NewData(temp, humi, gas)
      ensures alertActive == (Classify(temp, humi, gas) != Normal)
      ensures history == PushThenTrim29(old(history), PointOf(data))
    {
      var newData := NewData(temp, humi, gas);
      data := newData;
      alertActive := newData.status != Normal;
      var p := PointOf(newData);
      PushKeepsBars(history, p);
      history := PushThenTrim29(history, p);
    }

    /** The Reset Alert button: clears the flag and nothing else. */
    method ResetAlert()
      requires Valid()
      modifies this`alertActive
      ensures Valid()
      ensures !alertActive
      ensures data == old(data) && history == old(history)
    {
      alertActive := false;
    }
  }
}
