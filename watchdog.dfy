/** ArduinoServerWatchDog.py: the English dashboard with four metrics (temperature, humidity,
    noise level, MQ-2 gas). Each tick of `read_arduino_data` takes one received line, appends the
    value of every metric whose label the line contains, applies the threshold and cooldown rule
    per metric, and then trims the rolling lists in `update_graph`. */
module WatchDog {
  import opened Wrappers
  import opened PyStr
  import opened Host
  import opened Policy

  /** Most points kept in the temperature list before `update_graph` evicts the oldest. */
  const MaxDataPoints: nat := 100

  const TemperatureLabel: string := "Temperature"
  const HumidityLabel: string := "Humidity"
  const NoiseLabel: string := "Noise Level"
  const Mq2Label: string := "MQ-2 Value"

  const Celsius: string := "°C"
  const Percent: string := "%"

  const TemperatureTitle: string := "High Temperature Alert"
  const HumidityTitle: string := "Humidity Out of Range Alert"
  const NoiseTitle: string := "High Noise Alert"
  const GasTitle: string := "Gas Level Alert"

  function TemperatureBody(rt: Runtime, t: real): string { "Temperature: " + rt.floatText(t) + " °C" }
  function HumidityBody(rt: Runtime, h: real): string { "Humidity: " + rt.floatText(h) + "%" }
  function NoiseBody(rt: Runtime, n: int): string { "Noise Level: " + rt.intText(n) }
  function GasBody(rt: Runtime, g: int): string { "Gas Level: " + rt.intText(g) }

  /** The module-level state of the script: the four series and each metric's alert bookkeeping
      (`last_alert_time_*` and `last_*_alert`). */
  datatype State = State(
    temperatures: seq<real>, humidities: seq<real>, noiseLevels: seq<int>, mq2Levels: seq<real>,
    temp: AlertState, humidity: AlertState, noise: AlertState, mq2: AlertState)

  /** Before any alert: time 0 and an empty message, for every metric. */
  const NoAlert: AlertState := AlertState(0.0, "")

  const Initial: State := State([], [], [], [], NoAlert, NoAlert, NoAlert, NoAlert)

  /** The effect of (part of) a tick: the new state, the notifications sent, in order, and the
      exception that escaped, if one did. */
  datatype Outcome = Outcome(state: State, sent: seq<Notification>, raised: Option<Raised>)

  predicate TemperatureHigh(t: real) { t >= HighTemperature }
  predicate HumidityOutOfRange(h: real) { h < HumidityLow || h > HumidityHigh }
  predicate NoiseHigh(n: int) { n >= HighNoise }
  predicate GasHigh(level: real) { level >= HighGas }

  /** The gas value stored for a parsed MQ-2 reading: 0 becomes 0.1 so that the chart shows it,
      every other reading is kept as it is, and the remap never moves a value across the
      alert threshold. */
  function StoredGas(g: int): (level: real)
    ensures level != 0.0
    ensures g == 0 ==> level == 0.1
    ensures g != 0 ==> level == g as real
    ensures GasHigh(level) <==> g as real >= HighGas
  {
    if g == 0 then 0.1 else g as real
  }

  /** What each of the four blocks of `read_arduino_data` finds in one line. */
  datatype Scan = Scan(temperature: Reading<real>, humidity: Reading<real>, noise: Reading<int>, mq2: Reading<int>)

  /** The label test and field extraction of each block: "°C" is removed before the
      temperature is parsed, "%" before the humidity; noise and MQ-2 are parsed with `int`. */
  function ScanLine(data: string, rt: Runtime): (sc: Scan)
    ensures sc.temperature.Labelled? <==> Contains(data, TemperatureLabel)
    ensures sc.humidity.Labelled? <==> Contains(data, HumidityLabel)
    ensures sc.noise.Labelled? <==> Contains(data, NoiseLabel)
    ensures sc.mq2.Labelled? <==> Contains(data, Mq2Label)
    ensures SharedSeparator(sc)
  {
    Scan(FloatReading(data, TemperatureLabel, Celsius, rt), FloatReading(data, HumidityLabel, Percent, rt),
      IntReading(data, NoiseLabel, rt), IntReading(data, Mq2Label, rt))
  }

  /** All blocks split the same line on ':': either every labelled block finds no field, or
      none does. */
  predicate SharedSeparator(sc: Scan)
  {
    || ((NoField(sc.temperature) || sc.temperature.Unlabelled?) && (NoField(sc.humidity) || sc.humidity.Unlabelled?)
        && (NoField(sc.noise) || sc.noise.Unlabelled?) && (NoField(sc.mq2) || sc.mq2.Unlabelled?))
    || (!NoField(sc.temperature) && !NoField(sc.humidity) && !NoField(sc.noise) && !NoField(sc.mq2))
  }

  /** The temperature block of `read_arduino_data`. It touches only the temperature series and
      the temperature alert, raises only when its label is present and ':' is not, and sends
      only temperature alerts. */
  function TemperatureStep(r: Reading<real>, now: real, rt: Runtime, s: State): (o: Outcome)
    ensures o.state == s.(temperatures := o.state.temperatures, temp := o.state.temp)
    ensures r.Unlabelled? ==> o == Outcome(s, [], None)
    ensures o.raised.Some? <==> NoField(r)
    ensures o.raised.Some? ==> o.raised == Some(IndexError) && o.state == s && o.sent == []
    ensures |s.temperatures| <= |o.state.temperatures| <= |s.temperatures| + 1
    ensures forall m | m in o.sent :: m.title == TemperatureTitle
  {
    match r
    case Unlabelled => Outcome(s, [], None)
    case Labelled(Missing) => Outcome(s, [], Some(IndexError))
    case Labelled(Malformed) => Outcome(s, [], None)
    case Labelled(Value(t)) =>
      var v := Evaluate(TemperatureHigh(t), s.temp, now, TemperatureTitle, TemperatureBody(rt, t), rt.ctime(now));
      Outcome(s.(temperatures := s.temperatures + [t], temp := v.alert), v.sent, None)
  }

  /** The humidity block: same shape, with an out-of-range trigger. */
  function HumidityStep(r: Reading<real>, now: real, rt: Runtime, s: State): (o: Outcome)
    ensures o.state == s.(humidities := o.state.humidities, humidity := o.state.humidity)
    ensures r.Unlabelled? ==> o == Outcome(s, [], None)
    ensures o.raised.Some? <==> NoField(r)
    ensures o.raised.Some? ==> o.raised == Some(IndexError) && o.state == s && o.sent == []
    ensures forall m | m in o.sent :: m.title == HumidityTitle
  {
    match r
    case Unlabelled => Outcome(s, [], None)
    case Labelled(Missing) => Outcome(s, [], Some(IndexError))
    case Labelled(Malformed) => Outcome(s, [], None)
    case Labelled(Value(h)) =>
      var v := Evaluate(HumidityOutOfRange(h), s.humidity, now, HumidityTitle, HumidityBody(rt, h), rt.ctime(now));
      Outcome(s.(humidities := s.humidities + [h], humidity := v.alert), v.sent, None)
  }

  /** The noise block: an integer reading with a threshold of 200. */
  function NoiseStep(r: Reading<int>, now: real, rt: Runtime, s: State): (o: Outcome)
    ensures o.state == s.(noiseLevels := o.state.noiseLevels, noise := o.state.noise)
    ensures r.Unlabelled? ==> o == Outcome(s, [], None)
    ensures o.raised.Some? <==> NoField(r)
    ensures o.raised.Some? ==> o.raised == Some(IndexError) && o.state == s && o.sent == []
    ensures forall m | m in o.sent :: m.title == NoiseTitle
  {
    match r
    case Unlabelled => Outcome(s, [], None)
    case Labelled(Missing) => Outcome(s, [], Some(IndexError))
    case Labelled(Malformed) => Outcome(s, [], None)
    case Labelled(Value(n)) =>
      var v := Evaluate(NoiseHigh(n), s.noise, now, NoiseTitle, NoiseBody(rt, n), rt.ctime(now));
      Outcome(s.(noiseLevels := s.noiseLevels + [n], noise := v.alert), v.sent, None)
  }

  /** The MQ-2 block: an integer reading stored through `StoredGas` and compared after the
      remap. */
  function Mq2Step(r: Reading<int>, now: real, rt: Runtime, s: State): (o: Outcome)
    ensures o.state == s.(mq2Levels := o.state.mq2Levels, mq2 := o.state.mq2)
    ensures r.Unlabelled? ==> o == Outcome(s, [], None)
    ensures o.raised.Some? <==> NoField(r)
    ensures o.raised.Some? ==> o.raised == Some(IndexError) && o.state == s && o.sent == []
    ensures forall m | m in o.sent :: m.title == GasTitle
  {
    match r
    case Unlabelled => Outcome(s, [], None)
    case Labelled(Missing) => Outcome(s, [], Some(IndexError))
    case Labelled(Malformed) => Outcome(s, [], None)
    case Labelled(Value(g)) =>
      var level := StoredGas(g);
      var v := Evaluate(GasHigh(level), s.mq2, now, GasTitle, GasBody(rt, g), rt.ctime(now));
      Outcome(s.(mq2Levels := s.mq2Levels + [level], mq2 := v.alert), v.sent, None)
  }

  /** The four blocks of `read_arduino_data`, in order; an escaping exception ends the
      function, so the blocks after it do not run. The only exception that escapes is
      IndexError, and the line adds at most one temperature. */
  function ReadLine(sc: Scan, now: real, rt: Runtime, s: State): (o: Outcome)
    ensures o.raised.Some? ==> o.raised == Some(IndexError)
    ensures |s.temperatures| <= |o.state.temperatures| <= |s.temperatures| + 1
  {
    var t := TemperatureStep(sc.temperature, now, rt, s);
    if t.raised.Some? then t
    else
      var h := HumidityStep(sc.humidity, now, rt, t.state);
      if h.raised.Some? then Outcome(h.state, t.sent + h.sent, h.raised)
      else
        var n := NoiseStep(sc.noise, now, rt, h.state);
        if n.raised.Some? then Outcome(n.state, t.sent + h.sent + n.sent, n.raised)
        else
          var g := Mq2Step(sc.mq2, now, rt, n.state);
          Outcome(g.state, t.sent + h.sent + n.sent + g.sent, g.raised)
  }

  /** The trim at the top of `update_graph`: past `MaxDataPoints` temperatures, the front of
      each list is popped, the gas list only when it is not empty; popping an empty humidity
      or noise list raises IndexError after the earlier pops have happened. Nothing is sent,
      the only exception is IndexError, and past the bound exactly one temperature goes, even
      when a later pop raises. */
  function Trim(s: State): (o: Outcome)
    ensures o.sent == [] && (o.raised.Some? ==> o.raised == Some(IndexError))
    ensures |o.state.temperatures| == if |s.temperatures| > MaxDataPoints then |s.temperatures| - 1 else |s.temperatures|
  {
    if |s.temperatures| <= MaxDataPoints then Outcome(s, [], None)
    else
      var s1 := s.(temperatures := s.temperatures[1..]);
      if s.humidities == [] then Outcome(s1, [], Some(IndexError))
      else
        var s2 := s1.(humidities := s.humidities[1..]);
        if s.noiseLevels == [] then Outcome(s2, [], Some(IndexError))
        else
          var s3 := s2.(noiseLevels := s.noiseLevels[1..]);
          Outcome(s3.(mq2Levels := if s.mq2Levels != [] then s.mq2Levels[1..] else []), [], None)
  }

  /** One call of `read_arduino_data` on a received line, given what its blocks find in the
      stripped line: the blocks run and, if no exception escaped, `update_graph` trims the
      lists. The only exception that escapes is IndexError, and a tick adds at most one
      temperature. */
  function TickOn(sc: Scan, now: real, rt: Runtime, s: State): (o: Outcome)
    ensures o.raised.Some? ==> o.raised == Some(IndexError)
    ensures |o.state.temperatures| <= |s.temperatures| + 1
  {
    var r := ReadLine(sc, now, rt, s);
    if r.raised.Some? then r
    else
      var g := Trim(r.state);
      Outcome(g.state, r.sent, g.raised)
  }

  /** One call of `read_arduino_data`: nothing when no line is waiting; otherwise the line is
      stripped and processed as `TickOn` says. */
  function Tick(received: Option<string>, now: real, rt: Runtime, s: State): (o: Outcome)
    ensures received.None? ==> o == Outcome(s, [], None)
    ensures o.raised.Some? ==> o.raised == Some(IndexError)
    ensures |o.state.temperatures| <= |s.temperatures| + 1
  {
    match received
    case None => Outcome(s, [], None)
    case Some(line) => TickOn(ScanLine(Strip(line), rt), now, rt, s)
  }

  /** The script's module-level variables, updated in place by its two functions. */
  class Monitor {
    var temperatures: seq<real>
    var humidities: seq<real>
    var noiseLevels: seq<int>
    var mq2Levels: seq<real>
    var lastAlertTimeTemp: real
    var lastAlertTimeNoise: real
    var lastAlertTimeMq2: real
    var lastAlertTimeHumidity: real
    var lastTempAlert: string
    var lastNoiseAlert: string
    var lastMq2Alert: string
    var lastHumidityAlert: string

    function View(): State
      reads this
    {
      State(temperatures, humidities, noiseLevels, mq2Levels,
        AlertState(lastAlertTimeTemp, lastTempAlert), AlertState(lastAlertTimeHumidity, lastHumidityAlert),
        AlertState(lastAlertTimeNoise, lastNoiseAlert), AlertState(lastAlertTimeMq2, lastMq2Alert))
    }

    /** The initialisation at the top of the script: empty lists, alert times 0, no messages. */
    constructor ()
      ensures View() == Initial
    {
      temperatures, humidities, noiseLevels, mq2Levels := [], [], [], [];
      lastAlertTimeTemp, lastAlertTimeNoise, lastAlertTimeMq2, lastAlertTimeHumidity := 0.0, 0.0, 0.0, 0.0;
      lastTempAlert, lastNoiseAlert, lastMq2Alert, lastHumidityAlert := "", "", "", "";
    }

    /** The list trim of `update_graph`. */
    method UpdateGraph() returns (raised: Option<Raised>)
      modifies this
      ensures Outcome(View(), [], raised) == Trim(old(View()))
    {
      raised := None;
      if |temperatures| > MaxDataPoints {
        temperatures := temperatures[1..];
        if humidities == [] {
          raised := Some(IndexError);
          return;
        }
        humidities := humidities[1..];
        if noiseLevels == [] {
          raised := Some(IndexError);
          return;
        }
        noiseLevels := noiseLevels[1..];
        if mq2Levels != [] {
          mq2Levels := mq2Levels[1..];
        }
      }
    }

    /** `read_arduino_data`: `received` is the decoded line when one is waiting, `now` the
        clock; returns the notifications pushed and the exception that escaped, if any. */
    method ReadArduinoData(received: Option<string>, now: real, rt: Runtime) returns (sent: seq<Notification>, raised: Option<Raised>)
      modifies this
      ensures Outcome(View(), sent, raised) == Tick(received, now, rt, old(View()))
    {
      sent, raised := [], None;
      if received.None? {
        return;
      }
      var data := Strip(received.value);
      ghost var sc := ScanLine(data, rt);
      ghost var s0 := View();
      var pushed;
      pushed, raised := ProcessTemperature(FloatReading(data, TemperatureLabel, Celsius, rt), now, rt);
      ghost var t := Outcome(View(), pushed, raised);
      sent := pushed;
      if raised.Some? {
        assert ReadLine(sc, now, rt, s0) == t;
        return;
      }
      pushed, raised := ProcessHumidity(FloatReading(data, HumidityLabel, Percent, rt), now, rt);
      ghost var h := Outcome(View(), pushed, raised);
      sent := sent + pushed;
      if raised.Some? {
        assert ReadLine(sc, now, rt, s0) == Outcome(View(), sent, raised);
        return;
      }
      pushed, raised := ProcessNoiseLevel(IntReading(data, NoiseLabel, rt), now, rt);
      ghost var n := Outcome(View(), pushed, raised);
      sent := sent + pushed;
      if raised.Some? {
        assert ReadLine(sc, now, rt, s0) == Outcome(View(), sent, raised);
        return;
      }
      pushed, raised := ProcessGasLevel(IntReading(data, Mq2Label, rt), now, rt);
      ghost var g := Outcome(View(), pushed, raised);
      sent := sent + pushed;
      assert t == TemperatureStep(sc.temperature, now, rt, s0);
      assert h == HumidityStep(sc.humidity, now, rt, t.state);
      assert n == NoiseStep(sc.noise, now, rt, h.state);
      assert g == Mq2Step(sc.mq2, now, rt, n.state);
      assert sent == t.sent + h.sent + n.sent + g.sent;
      assert ReadLine(sc, now, rt, s0) == Outcome(View(), sent, raised);
      if raised.Some? {
        return;
      }
      raised := UpdateGraph();
    }

    /** The temperature block of `read_arduino_data`. */
    method ProcessTemperature(reading: Reading<real>, now: real, rt: Runtime) returns (sent: seq<Notification>, raised: Option<Raised>)
      modifies this
      ensures Outcome(View(), sent, raised) == TemperatureStep(reading, now, rt, old(View()))
    {
      sent, raised := [], None;
      match reading
      case Unlabelled =>
      case Labelled(Missing) =>
        raised := Some(IndexError);
      case Labelled(Malformed) =>
      case Labelled(Value(temperature)) =>
        temperatures := temperatures + [temperature];
        if TemperatureHigh(temperature) {
          if now - lastAlertTimeTemp >= CooldownSeconds {
            sent := [Notification(TemperatureTitle, TemperatureBody(rt, temperature))];
            lastAlertTimeTemp := now;
            lastTempAlert := TemperatureBody(rt, temperature) + " - " + rt.ctime(now);
          }
        }
    }

    /** The humidity block of `read_arduino_data`. */
    method ProcessHumidity(reading: Reading<real>, now: real, rt: Runtime) returns (sent: seq<Notification>, raised: Option<Raised>)
      modifies this
      ensures Outcome(View(), sent, raised) == HumidityStep(reading, now, rt, old(View()))
    {
      sent, raised := [], None;
      match reading
      case Unlabelled =>
      case Labelled(Missing) =>
        raised := Some(IndexError);
      case Labelled(Malformed) =>
      case Labelled(Value(humidity)) =>
        humidities := humidities + [humidity];
        if HumidityOutOfRange(humidity) {
          if now - lastAlertTimeHumidity >= CooldownSeconds {
            sent := [Notification(HumidityTitle, HumidityBody(rt, humidity))];
            lastAlertTimeHumidity := now;
            lastHumidityAlert := HumidityBody(rt, humidity) + " - " + rt.ctime(now);
          }
        }
    }

    /** The noise-level block of `read_arduino_data`. */
    method ProcessNoiseLevel(reading: Reading<int>, now: real, rt: Runtime) returns (sent: seq<Notification>, raised: Option<Raised>)
      modifies this
      ensures Outcome(View(), sent, raised) == NoiseStep(reading, now, rt, old(View()))
    {
      sent, raised := [], None;
      match reading
      case Unlabelled =>
      case Labelled(Missing) =>
        raised := Some(IndexError);
      case Labelled(Malformed) =>
      case Labelled(Value(noiseLevel)) =>
        noiseLevels := noiseLevels + [noiseLevel];
        if NoiseHigh(noiseLevel) {
          if now - lastAlertTimeNoise >= CooldownSeconds {
            sent := [Notification(NoiseTitle, NoiseBody(rt, noiseLevel))];
            lastAlertTimeNoise := now;
            lastNoiseAlert := NoiseBody(rt, noiseLevel) + " - " + rt.ctime(now);
          }
        }
    }

    /** The MQ-2 gas block of `read_arduino_data`. */
    method ProcessGasLevel(reading: Reading<int>, now: real, rt: Runtime) returns (sent: seq<Notification>, raised: Option<Raised>)
      modifies this
      ensures Outcome(View(), sent, raised) == Mq2Step(reading, now, rt, old(View()))
    {
      sent, raised := [], None;
      match reading
      case Unlabelled =>
      case Labelled(Missing) =>
        raised := Some(IndexError);
      case Labelled(Malformed) =>
      case Labelled(Value(gas)) =>
        var mq2Level := StoredGas(gas);
        mq2Levels := mq2Levels + [mq2Level];
        if GasHigh(mq2Level) {
          if now - lastAlertTimeMq2 >= CooldownSeconds {
            sent := [Notification(GasTitle, GasBody(rt, gas))];
            lastAlertTimeMq2 := now;
            lastMq2Alert := GasBody(rt, gas) + " - " + rt.ctime(now);
          }
        }
    }
  }
}
