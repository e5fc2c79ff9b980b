/**
 * The live dashboard (dashboard/src/App.jsx): every message on the data
 * topic replaces the displayed reading, sets the alert flag from the
 * status the device reported and appends a point to a 30-point history.
 * MQTT itself and JSON decoding are left out: a message arrives as its
 * topic and either a decoded payload or `None` when `JSON.parse` threw.
 */
module LiveDashboard {

  import opened Wrappers
  import opened Display
  import opened HistoryWindow

  /** The topic the dashboard subscribes to for readings. */
  const TopicData: string := "cmu/iot/benz/server-room/data"

  /** A decoded message: temperature, humidity, gas and the status string. */
  datatype Payload = Payload(temp: real, humi: real, gas: int, status: string)

  /** The displayed reading (`data`). */
  datatype Data = Data(temperature: real, humidity: real, gas: int, status: string)

  /** A history point; gas is stored divided by 50. */
  datatype Point = Point(temp: real, gas: real)

  /** The alert flag a status sets: anything but "normal" raises it. */
  predicate RaisesAlert(status: string): (a: bool)
    ensures !a ==> StatusColour(status) == Green
  {
    status != "normal"
  }

  /** The banner colour for a status string (`getStatusColor`). */
  function StatusColour(status: string): (c: Colour)
    ensures c == Red <==> status == "critical"
    ensures c == Yellow <==> status == "warning"
    ensures c == Green <==> status != "critical" && status != "warning"
  {
    if status == "critical" then Red
    else if status == "warning" then Yellow
    else Green
  }

  /**
   * A red or yellow banner always comes with the alert flag raised; a
   * status string other than the three known ones raises the flag under
   * a green banner.
   */
  lemma AlertAndBanner(status: string)
    ensures StatusColour(status) != Green ==> RaisesAlert(status)
    ensures status != "normal" && status != "warning" && status != "critical" ==>
      StatusColour(status) == Green && RaisesAlert(status)
    ensures StatusColour("normal") == Green && !RaisesAlert("normal")
  {
  }

  // Limits of the temperature figure's colour.
  const TempYellow: real := 26.0
  const TempRed: real := 30.0

  /**
   * The colour of the temperature figure: exclusive and exhaustive tiers
   * split strictly above 26 and above 30.
   */
  function TempColour(temp: real): (c: Colour)
    ensures c == Red <==> temp > 30.0
    ensures c == Yellow <==> 26.0 < temp <= 30.0
    ensures c == Green <==> temp <= 26.0
  {
    if temp > TempRed then Red
    else if temp > TempYellow then Yellow
    else Green
  }

  /** A warmer reading never shows a less severe temperature colour. */
  lemma TempColourMonotone(t1: real, t2: real)
    requires t1 <= t2
    ensures Rank(TempColour(t1)) <= Rank(TempColour(t2))
  {
  }

  /** The point a message adds: its temperature and its gas divided by 50. */
  function PointOf(d: Data): (p: Point)
    ensures TooltipGas(p) == d.gas
    ensures d.gas <= 5000 ==> GasBarHeight(p) == d.gas as real / 50.0
  {
    Point(d.temperature, d.gas as real / 50.0)
  }

  /** The tooltip over a point, `Math.round(item.gas * 50)`. */
  function TooltipGas(p: Point): (g: int)
    ensures g as real - 0.5 <= p.gas * 50.0 < g as real + 0.5
  {
    Round(p.gas * 50.0)
  }

  /** Over the reals, the tooltip gives back the integer gas of the message. */
  lemma TooltipRecoversGas(d: Data)
    ensures TooltipGas(PointOf(d)) == d.gas
  {
  }

  /** Height in percent of a temperature bar, `Math.min(100, (item.temp / 50) * 100)`. */
  function TempBarHeight(p: Point): (h: real)
    ensures h <= 100.0
    ensures p.temp <= 50.0 ==> h == p.temp * 2.0
    ensures p.temp >= 50.0 ==> h == 100.0
  {
    Min(100.0, p.temp / 50.0 * 100.0)
  }

  /** Height in percent of a gas bar, `Math.min(100, item.gas)`. */
  function GasBarHeight(p: Point): (h: real)
    ensures h <= 100.0
    ensures p.gas <= 100.0 ==> h == p.gas
    ensures p.gas >= 100.0 ==> h == 100.0
  {
    Min(100.0, p.gas)
  }

  /**
   * The gas bar maps 0..5000 onto 0..100 percent and stays full above
   * 5000.
   */
  lemma GasBarScale(d: Data)
    ensures d.gas <= 5000 ==> GasBarHeight(PointOf(d)) == d.gas as real / 50.0
    ensures d.gas >= 5000 ==> GasBarHeight(PointOf(d)) == 100.0
  {
  }

  /** The component's state. */
  class Dashboard {
    var data: Data
    var alertActive: bool
    var history: seq<Point>

    /**
     * The flag always follows the displayed status: the Reset Alarm button
     * only publishes a command and clears nothing locally.
     */
    ghost predicate Valid()
      reads this
    {
      alertActive == RaisesAlert(data.status) && |history| <= Capacity
    }

    /** The initial state, before any message. */
    constructor ()
      ensures Valid()
      ensures data == Data(0.0, 0.0, 0, "normal") && !alertActive && history == []
    {
      data := Data(0.0, 0.0, 0, "normal");
      alertActive := false;
      history := [];
    }

    /**
     * The message handler: a decoded message on the data topic replaces
     * the reading, sets the flag and extends the history; a message on
     * another topic, or one that failed to decode, changes nothing.
     */
    method OnMessage(topic: string, message: Option<Payload>)
      requires Valid()
      modifies this
      ensures Valid()
      ensures topic != TopicData || message.None? ==>
        data == old(data) && alertActive == old(alertActive) && history == old(history)
      ensures topic == TopicData && message.Some? ==>
        var p := message.value;
        data == Data(p.temp, p.humi, p.gas, p.status) &&
        alertActive == RaisesAlert(p.status) &&
        history == AppendThenTrim30(old(history), PointOf(data))
    {
      if topic == TopicData {
        match message
        case None =>
        case Some(p) =>
          var newData := Data(p.temp, p.humi, p.gas, p.status);
          data := newData;
          alertActive := p.status != "normal";
          history := AppendThenTrim30(history, PointOf(newData));
      }
    }
  }
}
