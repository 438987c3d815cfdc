/** AppData.py: the Portuguese dashboard with three metrics (temperature, humidity, noise
    level). Its `read_arduino_data` assigns the alert variables without declaring them `global`,
    so Python treats them as locals of the function: the cooldown test reads a local that has
    not been assigned yet and raises UnboundLocalError. As written, a temperature of 40 or more
    or a noise level of 200 or more is appended and then ends the tick with that exception; no
    notification is ever sent and the module-level alert variables never change. The `Intended*`
    functions give the behaviour the code evidently means, with the alert rule of `Policy`. */
module AppData {
  import opened Wrappers
  import opened PyStr
  import opened Host
  import opened Policy

  /** Most points kept in the temperature list before `update_graph` evicts the oldest. */
  const MaxDataPoints: nat := 100

  const TemperatureLabel: string := "Temperatura"
  const HumidityLabel: string := "Humidade"
  const NoiseLabel: string := "Nível de Ruído"

  const Celsius: string := "°C"
  const Percent: string := "%"

  const TemperatureTitle: string := "Alerta de Temperatura Alta"
  const NoiseTitle: string := "Alerta de Ruído Alto"

  function TemperatureBody(rt: Runtime, t: real): string { "Temperatura: " + rt.floatText(t) + " °C" }
  function NoiseBody(rt: Runtime, n: int): string { "Nível de Ruído: " + rt.intText(n) }

  /** The variables the assignments in the alert branches name, as Python reports them. */
  const TemperatureTimeVariable: string := "last_alert_time_temp"
  const NoiseTimeVariable: string := "last_alert_time_noise"

  /** The module-level state of the script: the three series, the time of the last temperature
      and noise alert, and the text of the last alert of each (None before any). */
  datatype State = State(
    temperatures: seq<real>, humidities: seq<real>, noiseLevels: seq<int>,
    lastAlertTimeTemp: real, lastAlertTimeNoise: real,
    lastTempAlert: Option<string>, lastNoiseAlert: Option<string>)

  const Initial: State := State([], [], [], 0.0, 0.0, None, None)

  /** The effect of (part of) a tick: the new state, the notifications sent, in order, and the
      exception that escaped, if one did. */
  datatype Outcome = Outcome(state: State, sent: seq<Notification>, raised: Option<Raised>)

  /** The exceptions that can escape `read_arduino_data` as written. */
  const AsWritten: set<Raised> := {IndexError, UnboundLocalError(TemperatureTimeVariable), UnboundLocalError(NoiseTimeVariable)}

  predicate TemperatureHigh(t: real) { t >= HighTemperature }
  predicate NoiseHigh(n: int) { n >= HighNoise }

  /** The module-level alert variables of `s` and `t` are the same. */
  predicate SameAlerts(s: State, t: State)
  {
    && s.lastAlertTimeTemp == t.lastAlertTimeTemp && s.lastAlertTimeNoise == t.lastAlertTimeNoise
    && s.lastTempAlert == t.lastTempAlert && s.lastNoiseAlert == t.lastNoiseAlert
  }

  /** What each of the three blocks of `read_arduino_data` finds in one line. */
  datatype Scan = Scan(temperature: Reading<real>, humidity: Reading<real>, noise: Reading<int>)

  /** The label test and field extraction of each block: "°C" is removed before the
      temperature is parsed, "%" before the humidity; the noise level is parsed with `int`. */
  function ScanLine(data: string, rt: Runtime): (sc: Scan)
    ensures sc.temperature.Labelled? <==> Contains(data, TemperatureLabel)
    ensures sc.humidity.Labelled? <==> Contains(data, HumidityLabel)
    ensures sc.noise.Labelled? <==> Contains(data, NoiseLabel)
    ensures SharedSeparator(sc)
  {
    Scan(FloatReading(data, TemperatureLabel, Celsius, rt), FloatReading(data, HumidityLabel, Percent, rt),
      IntReading(data, NoiseLabel, rt))
  }

  /** All blocks split the same line on ':': either every labelled block finds no field, or
      none does. */
  predicate SharedSeparator(sc: Scan)
  {
    || ((NoField(sc.temperature) || sc.temperature.Unlabelled?) && (NoField(sc.humidity) || sc.humidity.Unlabelled?)
        && (NoField(sc.noise) || sc.noise.Unlabelled?))
    || (!NoField(sc.temperature) && !NoField(sc.humidity) && !NoField(sc.noise))
  }

  /** The temperature block as written: a parsed value is appended, and a value of 40 or more
      then raises UnboundLocalError at the cooldown test. Nothing is ever sent and only the
      temperature series changes. */
  function TemperatureStep(r: Reading<real>, s: State): (o: Outcome)
    ensures o.state == s.(temperatures := o.state.temperatures)
    ensures o.sent == []
    ensures r.Unlabelled? ==> o == Outcome(s, [], None)
    ensures o.raised == Some(IndexError) <==> NoField(r)
    ensures o.raised.Some? ==> o.raised == Some(IndexError) || o.raised == Some(UnboundLocalError(TemperatureTimeVariable))
    ensures |s.temperatures| <= |o.state.temperatures| <= |s.temperatures| + 1
    ensures o.raised == Some(UnboundLocalError(TemperatureTimeVariable)) ==> |o.state.temperatures| == |s.temperatures| + 1
  {
    match r
    case Unlabelled => Outcome(s, [], None)
    case Labelled(Missing) => Outcome(s, [], Some(IndexError))
    case Labelled(Malformed) => Outcome(s, [], None)
    case Labelled(Value(t)) =>
      var s1 := s.(temperatures := s.temperatures + [t]);
      if TemperatureHigh(t) then Outcome(s1, [], Some(UnboundLocalError(TemperatureTimeVariable)))
      else Outcome(s1, [], None)
  }

  /** The humidity block: a parsed value is appended; there is no alert. */
  function HumidityStep(r: Reading<real>, s: State): (o: Outcome)
    ensures o.state == s.(humidities := o.state.humidities)
    ensures o.sent == []
    ensures r.Unlabelled? ==> o == Outcome(s, [], None)
    ensures o.raised.Some? <==> NoField(r)
    ensures o.raised.Some? ==> o == Outcome(s, [], Some(IndexError))
  {
    match r
    case Unlabelled => Outcome(s, [], None)
    case Labelled(Missing) => Outcome(s, [], Some(IndexError))
    case Labelled(Malformed) => Outcome(s, [], None)
    case Labelled(Value(h)) => Outcome(s.(humidities := s.humidities + [h]), [], None)
  }

  /** The noise block as written: a parsed level is appended, and a level of 200 or more then
      raises UnboundLocalError at the cooldown test. */
  function NoiseStep(r: Reading<int>, s: State): (o: Outcome)
    ensures o.state == s.(noiseLevels := o.state.noiseLevels)
    ensures o.sent == []
    ensures r.Unlabelled? ==> o == Outcome(s, [], None)
    ensures o.raised == Some(IndexError) <==> NoField(r)
    ensures o.raised.Some? ==> o.raised == Some(IndexError) || o.raised == Some(UnboundLocalError(NoiseTimeVariable))
  {
    match r
    case Unlabelled => Outcome(s, [], None)
    case Labelled(Missing) => Outcome(s, [], Some(IndexError))
    case Labelled(Malformed) => Outcome(s, [], None)
    case Labelled(Value(n)) =>
      var s1 := s.(noiseLevels := s.noiseLevels + [n]);
      if NoiseHigh(n) then Outcome(s1, [], Some(UnboundLocalError(NoiseTimeVariable)))
      else Outcome(s1, [], None)
  }

  /** The three blocks of `read_arduino_data` in order: `t` is the temperature block's outcome,
      `h` and `n` the humidity and noise blocks applied to the state before them. An escaping
      exception ends the function, so the blocks after it do not run. */
  function Chain(t: Outcome, h: State -> Outcome, n: State -> Outcome): (c: Outcome)
    ensures t.raised.Some? ==> c == t
    ensures t.sent <= c.sent
  {
    if t.raised.Some? then t
    else
      var ho := h(t.state);
      if ho.raised.Some? then Outcome(ho.state, t.sent + ho.sent, ho.raised)
      else
        var no := n(ho.state);
        Outcome(no.state, t.sent + ho.sent + no.sent, no.raised)
  }

  /** The three blocks as written, in order. Nothing is sent and the alert variables stay as
      they are; the exceptions that escape are IndexError and the UnboundLocalError of either
      alert-time variable; at most one temperature is appended. */
  function ReadLine(sc: Scan, s: State): (o: Outcome)
    ensures o.sent == [] && SameAlerts(o.state, s)
    ensures o.raised.Some? ==> o.raised.value in AsWritten
    ensures |s.temperatures| <= |o.state.temperatures| <= |s.temperatures| + 1
  {
    Chain(TemperatureStep(sc.temperature, s), st => HumidityStep(sc.humidity, st), st => NoiseStep(sc.noise, st))
  }

  /** The trim at the top of `update_graph`: past `MaxDataPoints` temperatures, the front of
      each of the three lists is popped; popping an empty humidity or noise list raises
      IndexError after the earlier pops have happened. Only IndexError escapes, nothing is sent,
      the alert variables stay as they are and one temperature leaves exactly when there were
      more than `MaxDataPoints`. */
  function Trim(s: State): (o: Outcome)
    ensures o.sent == [] && SameAlerts(o.state, s)
    ensures o.raised.Some? ==> o.raised == Some(IndexError)
    ensures |o.state.temperatures| == if |s.temperatures| > MaxDataPoints then |s.temperatures| - 1 else |s.temperatures|
  {
    if |s.temperatures| <= MaxDataPoints then Outcome(s, [], None)
    else
      var s1 := s.(temperatures := s.temperatures[1..]);
      if s.humidities == [] then Outcome(s1, [], Some(IndexError))
      else
        var s2 := s1.(humidities := s.humidities[1..]);
        if s.noiseLevels == [] then Outcome(s2, [], Some(IndexError))
        else Outcome(s2.(noiseLevels := s.noiseLevels[1..]), [], None)
  }

  /** Runs `update_graph`'s trim after a line that raised nothing: a line that raised is
      left as it is, and the trim sends nothing and raises at most IndexError. */
  function ThenTrim(r: Outcome): (o: Outcome)
    ensures r.raised.Some? ==> o == r
    ensures o.sent == r.sent
    ensures r.raised.None? && o.raised.Some? ==> o.raised == Some(IndexError)
  {
    if r.raised.Some? then r
    else
      var g := Trim(r.state);
      Outcome(g.state, r.sent, g.raised)
  }

  /** One call of `read_arduino_data` as written: nothing when no line is waiting; otherwise
      the stripped line is processed and, if no exception escaped, the lists are trimmed. The
      clock is read in an alert branch, but the operand after it raises UnboundLocalError
      before its value is used, so the tick does not depend on it. The
      exceptions that escape are those of `ReadLine`, and at most one temperature is added. */
  function Tick(received: Option<string>, rt: Runtime, s: State): (o: Outcome)
    ensures received.None? ==> o == Outcome(s, [], None)
    ensures o.raised.Some? ==> o.raised.value in AsWritten
    ensures |o.state.temperatures| <= |s.temperatures| + 1
  {
    match received
    case None => Outcome(s, [], None)
    case Some(line) => ThenTrim(ReadLine(ScanLine(Strip(line), rt), s))
  }

  /** The temperature block as evidently intended, with `last_alert_time_temp` and
      `last_temp_alert` declared global: the alert rule of `Policy` with the message set to
      the body stamped with the time. */
  function IntendedTemperatureStep(r: Reading<real>, now: real, rt: Runtime, s: State): (o: Outcome)
    ensures o.state == s.(temperatures := o.state.temperatures, lastAlertTimeTemp := o.state.lastAlertTimeTemp,
                          lastTempAlert := o.state.lastTempAlert)
    ensures o.raised.Some? <==> NoField(r)
    ensures o.raised.Some? ==> o == Outcome(s, [], Some(IndexError))
    ensures |s.temperatures| <= |o.state.temperatures| <= |s.temperatures| + 1
    ensures forall m | m in o.sent :: m.title == TemperatureTitle
  {
    match r
    case Unlabelled => Outcome(s, [], None)
    case Labelled(Missing) => Outcome(s, [], Some(IndexError))
    case Labelled(Malformed) => Outcome(s, [], None)
    case Labelled(Value(t)) =>
      var v := Evaluate(TemperatureHigh(t), AlertState(s.lastAlertTimeTemp, ""), now, TemperatureTitle,
        TemperatureBody(rt, t), rt.ctime(now));
      var s1 := s.(temperatures := s.temperatures + [t]);
      if v.sent == [] then Outcome(s1, [], None)
      else Outcome(s1.(lastAlertTimeTemp := now, lastTempAlert := Some(v.alert.lastMessage)), v.sent, None)
  }

  /** The noise block as evidently intended, with its alert variables declared global. */
  function IntendedNoiseStep(r: Reading<int>, now: real, rt: Runtime, s: State): (o: Outcome)
    ensures o.state == s.(noiseLevels := o.state.noiseLevels, lastAlertTimeNoise := o.state.lastAlertTimeNoise,
                          lastNoiseAlert := o.state.lastNoiseAlert)
    ensures o.raised.Some? <==> NoField(r)
    ensures o.raised.Some? ==> o == Outcome(s, [], Some(IndexError))
    ensures forall m | m in o.sent :: m.title == NoiseTitle
  {
    match r
    case Unlabelled => Outcome(s, [], None)
    case Labelled(Missing) => Outcome(s, [], Some(IndexError))
    case Labelled(Malformed) => Outcome(s, [], None)
    case Labelled(Value(n)) =>
      var v := Evaluate(NoiseHigh(n), AlertState(s.lastAlertTimeNoise, ""), now, NoiseTitle,
        NoiseBody(rt, n), rt.ctime(now));
      var s1 := s.(noiseLevels := s.noiseLevels + [n]);
      if v.sent == [] then Outcome(s1, [], None)
      else Outcome(s1.(lastAlertTimeNoise := now, lastNoiseAlert := Some(v.alert.lastMessage)), v.sent, None)
  }

  /** Successive calls of `read_arduino_data`, one per entry of `lines`, until one raises: an
      escaping exception skips the re-schedule with `root.after`, so polling stops there, with
      one of the exceptions of a tick. */
  function Run(lines: seq<Option<string>>, rt: Runtime, s: State): (r: Outcome)
    ensures lines == [] ==> r == Outcome(s, [], None)
    ensures r.raised.Some? ==> r.raised.value in AsWritten
    decreases |lines|
  {
    if lines == [] then Outcome(s, [], None)
    else
      var o := Tick(lines[0], rt, s);
      if o.raised.Some? then o
      else
        var rest := Run(lines[1..], rt, o.state);
        Outcome(rest.state, o.sent + rest.sent, rest.raised)
  }

  /** One call of `read_arduino_data` as evidently intended: only IndexError escapes, and at
      most one temperature is added. */
  function IntendedTick(received: Option<string>, now: real, rt: Runtime, s: State): (o: Outcome)
    ensures received.None? ==> o == Outcome(s, [], None)
    ensures o.raised.Some? ==> o.raised == Some(IndexError)
    ensures |o.state.temperatures| <= |s.temperatures| + 1
  {
    match received
    case None => Outcome(s, [], None)
    case Some(line) =>
      var sc := ScanLine(Strip(line), rt);
      ThenTrim(Chain(IntendedTemperatureStep(sc.temperature, now, rt, s), st => HumidityStep(sc.humidity, st),
        st => IntendedNoiseStep(sc.noise, now, rt, st)))
  }

  /** The script's module-level variables, updated in place by its two functions; the
      alert variables are only ever read, by the alert display, since the assignments in
      `read_arduino_data` go to locals. */
  class Monitor {
    var temperatures: seq<real>
    var humidities: seq<real>
    var noiseLevels: seq<int>
    var lastAlertTimeTemp: real
    var lastAlertTimeNoise: real
    var lastTempAlert: Option<string>
    var lastNoiseAlert: Option<string>

    function View(): State
      reads this
    {
      State(temperatures, humidities, noiseLevels, lastAlertTimeTemp, lastAlertTimeNoise, lastTempAlert, lastNoiseAlert)
    }

    /** The initialisation at the top of the script: empty lists, alert times 0, no alerts. */
    constructor ()
      ensures View() == Initial
    {
      temperatures, humidities, noiseLevels := [], [], [];
      lastAlertTimeTemp, lastAlertTimeNoise := 0.0, 0.0;
      lastTempAlert, lastNoiseAlert := None, None;
    }

    /** The list trim of `update_graph`. */
    method UpdateGraph() returns (raised: Option<Raised>)
      modifies this
      ensures Outcome(View(), [], raised) == Trim(old(View()))
    {
      raised := None;
      if |temperatures| > MaxDataPoints {
        temperatures := temperatures[1..];
        if humidities == [] {
          raised := Some(IndexError);
          return;
        }
        humidities := humidities[1..];
        if noiseLevels == [] {
          raised := Some(IndexError);
          return;
        }
        noiseLevels := noiseLevels[1..];
      }
    }

    /** `read_arduino_data`: `received` is the decoded line when one is waiting; returns the
        notifications pushed and the exception that escaped, if any. */
    method ReadArduinoData(received: Option<string>, rt: Runtime) returns (sent: seq<Notification>, raised: Option<Raised>)
      modifies this
      ensures Outcome(View(), sent, raised) == Tick(received, rt, old(View()))
    {
      sent, raised := [], None;
      if received.None? {
        return;
      }
      var data := Strip(received.value);
      ghost var sc := ScanLine(data, rt);
      ghost var s0 := View();
      raised := ProcessTemperature(FloatReading(data, TemperatureLabel, Celsius, rt));
      ghost var t := Outcome(View(), [], raised);
      if raised.Some? {
        assert ReadLine(sc, s0) == t;
        return;
      }
      raised := ProcessHumidity(FloatReading(data, HumidityLabel, Percent, rt));
      ghost var h := Outcome(View(), [], raised);
      if raised.Some? {
        assert ReadLine(sc, s0) == Outcome(View(), [], raised);
        return;
      }
      raised := ProcessNoiseLevel(IntReading(data, NoiseLabel, rt));
      assert t == TemperatureStep(sc.temperature, s0);
      assert h == HumidityStep(sc.humidity, t.state);
      assert ReadLine(sc, s0) == Outcome(View(), [], raised);
      if raised.Some? {
        return;
      }
      raised := UpdateGraph();
    }

    /** The temperature block of `read_arduino_data`, as written. */
    method ProcessTemperature(reading: Reading<real>) returns (raised: Option<Raised>)
      modifies this
      ensures Outcome(View(), [], raised) == TemperatureStep(reading, old(View()))
    {
      raised := None;
      match reading
      case Unlabelled =>
      case Labelled(Missing) =>
        raised := Some(IndexError);
      case Labelled(Malformed) =>
      case Labelled(Value(temperature)) =>
        temperatures := temperatures + [temperature];
        if TemperatureHigh(temperature) {
          raised := Some(UnboundLocalError(TemperatureTimeVariable));
        }
    }

    /** The humidity block of `read_arduino_data`. */
    method ProcessHumidity(reading: Reading<real>) returns (raised: Option<Raised>)
      modifies this
      ensures Outcome(View(), [], raised) == HumidityStep(reading, old(View()))
    {
      raised := None;
      match reading
      case Unlabelled =>
      case Labelled(Missing) =>
        raised := Some(IndexError);
      case Labelled(Malformed) =>
      case Labelled(Value(humidity)) =>
        humidities := humidities + [humidity];
    }

    /** The noise-level block of `read_arduino_data`, as written. */
    method ProcessNoiseLevel(reading: Reading<int>) returns (raised: Option<Raised>)
      modifies this
      ensures Outcome(View(), [], raised) == NoiseStep(reading, old(View()))
    {
      raised := None;
      match reading
      case Unlabelled =>
      case Labelled(Missing) =>
        raised := Some(IndexError);
      case Labelled(Malformed) =>
      case Labelled(Value(noiseLevel)) =>
        noiseLevels := noiseLevels + [noiseLevel];
        if NoiseHigh(noiseLevel) {
          raised := Some(UnboundLocalError(NoiseTimeVariable));
        }
    }
  }
}
