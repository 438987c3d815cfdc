/** What ArduinoServerWatchDog.py promises about one received line, about the trim in
    `update_graph`, and about the two together. */
module WatchDogProps {
  import opened Wrappers
  import opened PyStr
  import opened Host
  import opened Policy
  import opened WatchDog

  /** The four label checks are independent: after a line, each metric's series and alert
      bookkeeping are what that metric's own block makes of the state before the line, whatever
      other labels the line holds; the notifications are those of the four blocks in order; and
      an exception escapes only for a labelled line without ':', leaving everything as it was. */
  lemma MetricsIndependent(sc: Scan, now: real, rt: Runtime, s: State)
    requires SharedSeparator(sc)
    ensures var o := ReadLine(sc, now, rt, s);
      var t := TemperatureStep(sc.temperature, now, rt, s);
      var h := HumidityStep(sc.humidity, now, rt, s);
      var n := NoiseStep(sc.noise, now, rt, s);
      var g := Mq2Step(sc.mq2, now, rt, s);
      && o.state == State(t.state.temperatures, h.state.humidities, n.state.noiseLevels, g.state.mq2Levels,
                          t.state.temp, h.state.humidity, n.state.noise, g.state.mq2)
      && o.sent == t.sent + h.sent + n.sent + g.sent
      && (o.raised.Some? <==> t.raised.Some? || h.raised.Some? || n.raised.Some? || g.raised.Some?)
      && (o.raised.Some? ==> o == Outcome(s, [], Some(IndexError)))
  {
    var t := TemperatureStep(sc.temperature, now, rt, s);
    if !NoField(sc.temperature) && !NoField(sc.humidity) && !NoField(sc.noise) && !NoField(sc.mq2) {
      var h := HumidityStep(sc.humidity, now, rt, t.state);
      var n := NoiseStep(sc.noise, now, rt, h.state);
      assert h.state.humidities == HumidityStep(sc.humidity, now, rt, s).state.humidities;
      assert h.state.humidity == HumidityStep(sc.humidity, now, rt, s).state.humidity;
      assert h.sent == HumidityStep(sc.humidity, now, rt, s).sent;
      assert n.state.noiseLevels == NoiseStep(sc.noise, now, rt, s).state.noiseLevels;
      assert n.state.noise == NoiseStep(sc.noise, now, rt, s).state.noise;
      assert n.sent == NoiseStep(sc.noise, now, rt, s).sent;
      var g := Mq2Step(sc.mq2, now, rt, n.state);
      assert g.state.mq2Levels == Mq2Step(sc.mq2, now, rt, s).state.mq2Levels;
      assert g.state.mq2 == Mq2Step(sc.mq2, now, rt, s).state.mq2;
      assert g.sent == Mq2Step(sc.mq2, now, rt, s).sent;
    }
  }

  /** A line containing "Temperature" whose value parses appends exactly that value and alerts
      when it is at least 40 and 300 s have passed since the last temperature alert; a value
      that does not parse changes nothing; a line without ':' raises IndexError and changes
      nothing. Other labels on the same line make no difference. */
  lemma TemperatureReading(sc: Scan, now: real, rt: Runtime, s: State)
    requires SharedSeparator(sc) && sc.temperature.Labelled?
    ensures var o := ReadLine(sc, now, rt, s);
      match sc.temperature.parsed
      case Value(t) =>
        && o.raised == None
        && o.state.temperatures == s.temperatures + [t]
        && if TemperatureHigh(t) && CooledDown(now, s.temp.lastTime) then
             && o.state.temp == AlertState(now, TemperatureBody(rt, t) + " - " + rt.ctime(now))
             && Notification(TemperatureTitle, TemperatureBody(rt, t)) in o.sent
           else
             && o.state.temp == s.temp
             && forall m | m in o.sent :: m.title != TemperatureTitle
      case Malformed =>
        && o.state.temperatures == s.temperatures && o.state.temp == s.temp
        && forall m | m in o.sent :: m.title != TemperatureTitle
      case Missing => o == Outcome(s, [], Some(IndexError))
  {
    MetricsIndependent(sc, now, rt, s);
  }

  /** The same for "Humidity", with "%" removed and an alert strictly outside 30..70. */
  lemma HumidityReading(sc: Scan, now: real, rt: Runtime, s: State)
    requires SharedSeparator(sc) && sc.humidity.Labelled?
    ensures var o := ReadLine(sc, now, rt, s);
      match sc.humidity.parsed
      case Value(h) =>
        && o.raised == None
        && o.state.humidities == s.humidities + [h]
        && if HumidityOutOfRange(h) && CooledDown(now, s.humidity.lastTime) then
             && o.state.humidity == AlertState(now, HumidityBody(rt, h) + " - " + rt.ctime(now))
             && Notification(HumidityTitle, HumidityBody(rt, h)) in o.sent
           else
             && o.state.humidity == s.humidity
             && forall m | m in o.sent :: m.title != HumidityTitle
      case Malformed =>
        && o.state.humidities == s.humidities && o.state.humidity == s.humidity
        && forall m | m in o.sent :: m.title != HumidityTitle
      case Missing => o == Outcome(s, [], Some(IndexError))
  {
    MetricsIndependent(sc, now, rt, s);
  }

  /** The same for "Noise Level", parsed with `int`, alerting at 200 or more. */
  lemma NoiseReading(sc: Scan, now: real, rt: Runtime, s: State)
    requires SharedSeparator(sc) && sc.noise.Labelled?
    ensures var o := ReadLine(sc, now, rt, s);
      match sc.noise.parsed
      case Value(n) =>
        && o.raised == None
        && o.state.noiseLevels == s.noiseLevels + [n]
        && if NoiseHigh(n) && CooledDown(now, s.noise.lastTime) then
             && o.state.noise == AlertState(now, NoiseBody(rt, n) + " - " + rt.ctime(now))
             && Notification(NoiseTitle, NoiseBody(rt, n)) in o.sent
           else
             && o.state.noise == s.noise
             && forall m | m in o.sent :: m.title != NoiseTitle
      case Malformed =>
        && o.state.noiseLevels == s.noiseLevels && o.state.noise == s.noise
        && forall m | m in o.sent :: m.title != NoiseTitle
      case Missing => o == Outcome(s, [], Some(IndexError))
  {
    MetricsIndependent(sc, now, rt, s);
  }

  /** The same for "MQ-2 Value": a reading of 0 is stored as 0.1, any other as it is, and it
      alerts at 200 or more with its own cooldown. */
  lemma GasReading(sc: Scan, now: real, rt: Runtime, s: State)
    requires SharedSeparator(sc) && sc.mq2.Labelled?
    ensures var o := ReadLine(sc, now, rt, s);
      match sc.mq2.parsed
      case Value(g) =>
        && o.raised == None
        && o.state.mq2Levels == s.mq2Levels + [if g == 0 then 0.1 else g as real]
        && if g as real >= HighGas && CooledDown(now, s.mq2.lastTime) then
             && o.state.mq2 == AlertState(now, GasBody(rt, g) + " - " + rt.ctime(now))
             && Notification(GasTitle, GasBody(rt, g)) in o.sent
           else
             && o.state.mq2 == s.mq2
             && forall m | m in o.sent :: m.title != GasTitle
      case Malformed =>
        && o.state.mq2Levels == s.mq2Levels && o.state.mq2 == s.mq2
        && forall m | m in o.sent :: m.title != GasTitle
      case Missing => o == Outcome(s, [], Some(IndexError))
  {
    MetricsIndependent(sc, now, rt, s);
  }

  /** One line may feed several series: with both labels and both values parsing, the
      temperature and the humidity series each grow by their value. */
  lemma OneLineSeveralSeries(data: string, now: real, rt: Runtime, s: State, t: real, h: real)
    requires Contains(data, TemperatureLabel) && FloatField(data, Celsius, rt) == Value(t)
    requires Contains(data, HumidityLabel) && FloatField(data, Percent, rt) == Value(h)
    ensures var o := ReadLine(ScanLine(data, rt), now, rt, s);
      o.state.temperatures == s.temperatures + [t] && o.state.humidities == s.humidities + [h]
  {
    var sc := ScanLine(data, rt);
    assert sc.temperature == Labelled(Value(t)) && sc.humidity == Labelled(Value(h));
    TemperatureReading(sc, now, rt, s);
    HumidityReading(sc, now, rt, s);
  }

  /** Humidity alerts only strictly outside the range: 30 and 70 never alert, 29.9 and 70.1
      do once the cooldown has run out. */
  lemma HumidityBoundsExclusive(sc: Scan, now: real, rt: Runtime, s: State, h: real)
    requires SharedSeparator(sc) && sc.humidity == Labelled(Value(h))
    ensures var o := ReadLine(sc, now, rt, s);
      && ((h == 30.0 || h == 70.0) ==> o.state.humidity == s.humidity && forall m | m in o.sent :: m.title != HumidityTitle)
      && ((h == 29.9 || h == 70.1) && CooledDown(now, s.humidity.lastTime) ==>
            Notification(HumidityTitle, HumidityBody(rt, h)) in o.sent)
  {
    HumidityReading(sc, now, rt, s);
  }

  /** With the initial bookkeeping (alert time 0), the first reading past its threshold at any
      time from 300 on sends its metric's notification and records the time, for each metric. */
  lemma FirstAlertFromStart(sc: Scan, now: real, rt: Runtime)
    requires SharedSeparator(sc) && now >= CooldownSeconds
    ensures var o := ReadLine(sc, now, rt, Initial);
      && ((sc.temperature.Labelled? && sc.temperature.parsed.Value? && TemperatureHigh(sc.temperature.parsed.v))
            ==> o.state.temp.lastTime == now
                && Notification(TemperatureTitle, TemperatureBody(rt, sc.temperature.parsed.v)) in o.sent)
      && ((sc.humidity.Labelled? && sc.humidity.parsed.Value? && HumidityOutOfRange(sc.humidity.parsed.v))
            ==> o.state.humidity.lastTime == now
                && Notification(HumidityTitle, HumidityBody(rt, sc.humidity.parsed.v)) in o.sent)
      && ((sc.noise.Labelled? && sc.noise.parsed.Value? && NoiseHigh(sc.noise.parsed.v))
            ==> o.state.noise.lastTime == now
                && Notification(NoiseTitle, NoiseBody(rt, sc.noise.parsed.v)) in o.sent)
      && ((sc.mq2.Labelled? && sc.mq2.parsed.Value? && sc.mq2.parsed.v as real >= HighGas)
            ==> o.state.mq2.lastTime == now
                && Notification(GasTitle, GasBody(rt, sc.mq2.parsed.v)) in o.sent)
  {
    MetricsIndependent(sc, now, rt, Initial);
  }

  /** Successive temperature readings of 39.9 and then 40.0 alert once, at 40.0; a 45.0 within
      300 s of that alert does not alert; a 45.0 once 300 s have passed alerts again. */
  lemma TemperatureCooldownScenario(rt: Runtime, s: State, t0: real)
    requires CooledDown(t0 + 1.0, s.temp.lastTime)
    ensures var o1 := TemperatureStep(Labelled(Value(39.9)), t0, rt, s);
      var o2 := TemperatureStep(Labelled(Value(40.0)), t0 + 1.0, rt, o1.state);
      var o3 := TemperatureStep(Labelled(Value(45.0)), t0 + 200.0, rt, o2.state);
      var o4 := TemperatureStep(Labelled(Value(45.0)), t0 + 301.0, rt, o3.state);
      && o1.sent == [] && |o2.sent| == 1 && o3.sent == [] && |o4.sent| == 1
      && o4.state.temperatures == s.temperatures + [39.9, 40.0, 45.0, 45.0]
      && o4.state.temp.lastTime == t0 + 301.0
  {
  }

  /** A line lacking a character of each of three labels holds none of them. */
  lemma LacksLabels(data: string, a: string, ca: char, b: string, cb: char, c: string, cc: char)
    requires ca in a && ca !in data && cb in b && cb !in data && cc in c && cc !in data
    ensures !Contains(data, a) && !Contains(data, b) && !Contains(data, c)
  {
    AbsentChar(data, a, ca);
    AbsentChar(data, b, cb);
    AbsentChar(data, c, cc);
  }

  /** The unit "°C" does not overlap itself. */
  lemma CelsiusSelfDisjoint()
    ensures SelfDisjoint(Celsius)
  {
    assert Celsius[1..][0] == 'C' && Celsius[..1][0] == '°';
  }

  /** The received line "Temperature: 41°C" is read as a temperature of 41 and as nothing
      else, so a tick on it is a tick on that reading, where Python's `float("41")` is 41. */
  lemma TemperatureLineTick(rt: Runtime, now: real, s: State)
    requires rt.parseFloat("41") == Some(41.0)
    ensures ScanLine(Strip("Temperature: 41°C"), rt) == Scan(Labelled(Value(41.0)), Unlabelled, Unlabelled, Unlabelled)
    ensures Tick(Some("Temperature: 41°C"), now, rt, s) == TickOn(Scan(Labelled(Value(41.0)), Unlabelled, Unlabelled, Unlabelled), now, rt, s)
  {
    StripPadded("", "Temperature: 41°C", "");
    assert "" + "Temperature: 41°C" + "" == "Temperature: 41°C";
    TemperatureLineLabels();
    TemperatureLineField(rt);
  }

  lemma TemperatureLineLabels()
    ensures Contains("Temperature: 41°C", TemperatureLabel) && !Contains("Temperature: 41°C", HumidityLabel)
      && !Contains("Temperature: 41°C", NoiseLabel) && !Contains("Temperature: 41°C", Mq2Label)
  {
    assert OccursAt("Temperature: 41°C", TemperatureLabel, 0);
    LacksLabels("Temperature: 41°C", HumidityLabel, 'H', NoiseLabel, 'N', Mq2Label, 'Q');
  }

  lemma TemperatureLineField(rt: Runtime)
    requires rt.parseFloat("41") == Some(41.0)
    ensures FloatField("Temperature: 41°C", Celsius, rt) == Value(41.0)
  {
    CelsiusSelfDisjoint();
    AbsentChar(" 41", Celsius, '°');
    TemperatureLineText();
    FloatFieldOf(TemperatureLabel, "41", Celsius, rt);
  }

  lemma TemperatureLineText()
    ensures TemperatureLabel + ": " + "41" + Celsius == "Temperature: 41°C"
  {
  }

  /** The received line "Noise Level: 250" is read as a noise level of 250 and as nothing
      else, so a tick on it is a tick on that reading, where Python's `int("250")` is 250. */
  lemma NoiseLineTick(rt: Runtime, now: real, s: State)
    requires rt.parseInt("250") == Some(250)
    ensures ScanLine(Strip("Noise Level: 250"), rt) == Scan(Unlabelled, Unlabelled, Labelled(Value(250)), Unlabelled)
    ensures Tick(Some("Noise Level: 250"), now, rt, s) == TickOn(Scan(Unlabelled, Unlabelled, Labelled(Value(250)), Unlabelled), now, rt, s)
  {
    StripPadded("", "Noise Level: 250", "");
    assert "" + "Noise Level: 250" + "" == "Noise Level: 250";
    NoiseLineLabels();
    NoiseLineField(rt);
  }

  lemma NoiseLineLabels()
    ensures Contains("Noise Level: 250", NoiseLabel) && !Contains("Noise Level: 250", TemperatureLabel)
      && !Contains("Noise Level: 250", HumidityLabel) && !Contains("Noise Level: 250", Mq2Label)
  {
    assert OccursAt("Noise Level: 250", NoiseLabel, 0);
    LacksLabels("Noise Level: 250", TemperatureLabel, 'T', HumidityLabel, 'H', Mq2Label, 'Q');
  }

  lemma NoiseLineField(rt: Runtime)
    requires rt.parseInt("250") == Some(250)
    ensures IntField("Noise Level: 250", rt) == Value(250)
  {
    NoiseLineText();
    IntFieldOf(NoiseLabel, "250", rt);
  }

  lemma NoiseLineText()
    ensures NoiseLabel + ": " + "250" == "Noise Level: 250"
  {
  }

  /** The received line "Humidity: 50%" is read as a humidity of 50 and as nothing else, so a
      tick on it is a tick on that reading, where Python's `float("50")` is 50. */
  lemma HumidityLineTick(rt: Runtime, now: real, s: State)
    requires rt.parseFloat("50") == Some(50.0)
    ensures ScanLine(Strip("Humidity: 50%"), rt) == Scan(Unlabelled, Labelled(Value(50.0)), Unlabelled, Unlabelled)
    ensures Tick(Some("Humidity: 50%"), now, rt, s) == TickOn(Scan(Unlabelled, Labelled(Value(50.0)), Unlabelled, Unlabelled), now, rt, s)
  {
    StripPadded("", "Humidity: 50%", "");
    assert "" + "Humidity: 50%" + "" == "Humidity: 50%";
    HumidityLineLabels();
    HumidityLineField(rt);
  }

  lemma HumidityLineLabels()
    ensures Contains("Humidity: 50%", HumidityLabel) && !Contains("Humidity: 50%", TemperatureLabel)
      && !Contains("Humidity: 50%", NoiseLabel) && !Contains("Humidity: 50%", Mq2Label)
  {
    assert OccursAt("Humidity: 50%", HumidityLabel, 0);
    LacksLabels("Humidity: 50%", TemperatureLabel, 'T', NoiseLabel, 'N', Mq2Label, 'Q');
  }

  lemma HumidityLineField(rt: Runtime)
    requires rt.parseFloat("50") == Some(50.0)
    ensures FloatField("Humidity: 50%", Percent, rt) == Value(50.0)
  {
    AbsentChar(" 50", Percent, '%');
    HumidityLineText();
    FloatFieldOf(HumidityLabel, "50", Percent, rt);
  }

  lemma HumidityLineText()
    ensures HumidityLabel + ": " + "50" + Percent == "Humidity: 50%"
  {
  }

  /** From the start, a temperature reading of 41, a noise reading of 250 and a humidity
      reading of 50, a second apart, send two alerts (temperature, then noise), feed three
      series, and leave the humidity and gas bookkeeping as it was. */
  lemma ThreeReadingScenario(rt: Runtime, now: real)
    requires now >= CooldownSeconds
    ensures var o1 := TickOn(Scan(Labelled(Value(41.0)), Unlabelled, Unlabelled, Unlabelled), now, rt, Initial);
      var o2 := TickOn(Scan(Unlabelled, Unlabelled, Labelled(Value(250)), Unlabelled), now + 1.0, rt, o1.state);
      var o3 := TickOn(Scan(Unlabelled, Labelled(Value(50.0)), Unlabelled, Unlabelled), now + 2.0, rt, o2.state);
      && o1.sent == [Notification(TemperatureTitle, TemperatureBody(rt, 41.0))]
      && o2.sent == [Notification(NoiseTitle, NoiseBody(rt, 250))]
      && o3.sent == [] && o3.raised == None
      && o3.state.temperatures == [41.0] && o3.state.noiseLevels == [250] && o3.state.humidities == [50.0]
      && o3.state.mq2Levels == [] && o3.state.humidity == NoAlert && o3.state.mq2 == NoAlert
  {
  }

  /** The same from the received lines "Temperature: 41°C", "Noise Level: 250" and
      "Humidity: 50%", where Python parses the three numbers as written. */
  lemma ThreeLineScenario(rt: Runtime, now: real)
    requires now >= CooldownSeconds
    requires rt.parseFloat("41") == Some(41.0) && rt.parseInt("250") == Some(250) && rt.parseFloat("50") == Some(50.0)
    ensures var o1 := Tick(Some("Temperature: 41°C"), now, rt, Initial);
      var o2 := Tick(Some("Noise Level: 250"), now + 1.0, rt, o1.state);
      var o3 := Tick(Some("Humidity: 50%"), now + 2.0, rt, o2.state);
      && o1.sent == [Notification(TemperatureTitle, TemperatureBody(rt, 41.0))]
      && o2.sent == [Notification(NoiseTitle, NoiseBody(rt, 250))]
      && o3.sent == [] && o3.raised == None
      && o3.state.temperatures == [41.0] && o3.state.noiseLevels == [250] && o3.state.humidities == [50.0]
      && o3.state.mq2Levels == [] && o3.state.humidity == NoAlert && o3.state.mq2 == NoAlert
  {
    ThreeReadingScenario(rt, now);
    TemperatureLineTick(rt, now, Initial);
    var o1 := Tick(Some("Temperature: 41°C"), now, rt, Initial);
    NoiseLineTick(rt, now + 1.0, o1.state);
    var o2 := Tick(Some("Noise Level: 250"), now + 1.0, rt, o1.state);
    HumidityLineTick(rt, now + 2.0, o2.state);
  }

  /** The four metrics of the dashboard. */
  datatype Metric = Temperature | Humidity | Noise | Gas

  /** The block of metric `m` applied to what it finds in a line. */
  function MetricStep(m: Metric, sc: Scan, now: real, rt: Runtime, s: State): Outcome
  {
    match m
    case Temperature => TemperatureStep(sc.temperature, now, rt, s)
    case Humidity => HumidityStep(sc.humidity, now, rt, s)
    case Noise => NoiseStep(sc.noise, now, rt, s)
    case Gas => Mq2Step(sc.mq2, now, rt, s)
  }

  /** The alert bookkeeping of metric `m`. */
  function MetricAlert(m: Metric, s: State): AlertState
  {
    match m
    case Temperature => s.temp
    case Humidity => s.humidity
    case Noise => s.noise
    case Gas => s.mq2
  }

  /** The line holds a value of metric `m` past that metric's threshold. */
  predicate PastThreshold(m: Metric, sc: Scan)
  {
    match m
    case Temperature => sc.temperature.Labelled? && sc.temperature.parsed.Value? && TemperatureHigh(sc.temperature.parsed.v)
    case Humidity => sc.humidity.Labelled? && sc.humidity.parsed.Value? && HumidityOutOfRange(sc.humidity.parsed.v)
    case Noise => sc.noise.Labelled? && sc.noise.parsed.Value? && NoiseHigh(sc.noise.parsed.v)
    case Gas => sc.mq2.Labelled? && sc.mq2.parsed.Value? && GasHigh(StoredGas(sc.mq2.parsed.v))
  }

  /** Each block sends exactly when its value is past the threshold and the cooldown has run
      out since that metric's last alert, and then, and only then, records the time. */
  lemma MetricStepAlert(m: Metric, sc: Scan, now: real, rt: Runtime, s: State)
    ensures var o := MetricStep(m, sc, now, rt, s);
      && (o.sent != [] <==> PastThreshold(m, sc) && CooledDown(now, MetricAlert(m, s).lastTime))
      && MetricAlert(m, o.state).lastTime == if o.sent != [] then now else MetricAlert(m, s).lastTime
  {
  }

  /** The times at which the block of metric `m` sends, for successive lines given with the
      time each is read, starting from `s`. */
  function AlertTimes(m: Metric, lines: seq<(Scan, real)>, rt: Runtime, s: State): seq<real>
    decreases |lines|
  {
    if lines == [] then []
    else
      var o := MetricStep(m, lines[0].0, lines[0].1, rt, s);
      (if o.sent != [] then [lines[0].1] else []) + AlertTimes(m, lines[1..], rt, o.state)
  }

  /** Which of the lines hold a value of `m` past its threshold, with their times. */
  function Triggers(m: Metric, lines: seq<(Scan, real)>): seq<(bool, real)>
    decreases |lines|
  {
    if lines == [] then [] else [(PastThreshold(m, lines[0].0), lines[0].1)] + Triggers(m, lines[1..])
  }

  /** Every block follows the cooldown rule: it alerts exactly when `Replay` says. */
  lemma {:induction false} MetricFollowsReplay(m: Metric, lines: seq<(Scan, real)>, rt: Runtime, s: State)
    ensures AlertTimes(m, lines, rt, s) == Replay(Triggers(m, lines), MetricAlert(m, s).lastTime)
    decreases |lines|
  {
    if lines != [] {
      var (sc, now) := lines[0];
      var o := MetricStep(m, sc, now, rt, s);
      MetricStepAlert(m, sc, now, rt, s);
      MetricFollowsReplay(m, lines[1..], rt, o.state);
      var ts := Triggers(m, lines);
      assert ts[0] == (PastThreshold(m, sc), now) && ts[1..] == Triggers(m, lines[1..]);
    }
  }

  /** So the alerts of each metric come at least 300 s after the last one before them and at
      least 300 s apart from each other, whatever the lines and their times. */
  lemma MetricAlertsSpaced(m: Metric, lines: seq<(Scan, real)>, rt: Runtime, s: State)
    ensures var fired := AlertTimes(m, lines, rt, s);
      (fired != [] ==> fired[0] - MetricAlert(m, s).lastTime >= CooldownSeconds)
      && forall i :: 0 <= i < |fired| - 1 ==> fired[i + 1] - fired[i] >= CooldownSeconds
  {
    MetricFollowsReplay(m, lines, rt, s);
    ReplaySpacing(Triggers(m, lines), MetricAlert(m, s).lastTime);
  }

  /** The title of the alerts of metric `m`. */
  function Title(m: Metric): string
  {
    match m
    case Temperature => TemperatureTitle
    case Humidity => HumidityTitle
    case Noise => NoiseTitle
    case Gas => GasTitle
  }

  /** Some notification in `sent` is an alert of metric `m`. */
  predicate Alerted(m: Metric, sent: seq<Notification>)
  {
    exists n | n in sent :: n.title == Title(m)
  }

  /** Within one line, the alerts of metric `m` are those its own block sends, and its
      bookkeeping is what its own block makes of it. */
  lemma ReadLineAlerted(m: Metric, sc: Scan, now: real, rt: Runtime, s: State)
    requires SharedSeparator(sc)
    ensures var r := ReadLine(sc, now, rt, s);
      && (Alerted(m, r.sent) <==> MetricStep(m, sc, now, rt, s).sent != [])
      && MetricAlert(m, r.state) == MetricAlert(m, MetricStep(m, sc, now, rt, s).state)
  {
    var r := ReadLine(sc, now, rt, s);
    MetricsIndependent(sc, now, rt, s);
    DistinctTitles();
    var own := MetricStep(m, sc, now, rt, s).sent;
    if own != [] {
      assert own[0] in r.sent;
    }
    if Alerted(m, r.sent) {
      var k :| k in r.sent && k.title == Title(m);
      assert k in own by {
        var t := TemperatureStep(sc.temperature, now, rt, s);
        var h := HumidityStep(sc.humidity, now, rt, s);
        var n := NoiseStep(sc.noise, now, rt, s);
        var g := Mq2Step(sc.mq2, now, rt, s);
        assert k in t.sent || k in h.sent || k in n.sent || k in g.sent;
      }
    }
  }

  /** A whole call of `read_arduino_data` on a received line alerts for metric `m` exactly
      when that metric's block does: when the line holds a value past the threshold and the
      cooldown has run out since the metric's last alert; the time is recorded exactly then,
      and the trim leaves it alone. */
  lemma TickMetricAlert(m: Metric, line: string, now: real, rt: Runtime, s: State)
    ensures var o := Tick(Some(line), now, rt, s);
      && (Alerted(m, o.sent) <==> PastThreshold(m, ScanLine(Strip(line), rt)) && CooledDown(now, MetricAlert(m, s).lastTime))
      && MetricAlert(m, o.state).lastTime == if Alerted(m, o.sent) then now else MetricAlert(m, s).lastTime
  {
    var sc := ScanLine(Strip(line), rt);
    var r := ReadLine(sc, now, rt, s);
    ReadLineAlerted(m, sc, now, rt, s);
    MetricStepAlert(m, sc, now, rt, s);
    TrimEvictsOldest(r.state);
  }

  /** The four alert titles differ from each other. */
  lemma DistinctTitles()
    ensures forall m1: Metric, m2: Metric :: m1 != m2 ==> Title(m1) != Title(m2)
  {
    assert TemperatureTitle[0] == 'H' && HumidityTitle[0] == 'H' && NoiseTitle[0] == 'H' && GasTitle[0] == 'G';
    assert TemperatureTitle[5] == 'T' && HumidityTitle[5] == 'i' && NoiseTitle[5] == 'N';
  }

  /** The times at which successive calls of `read_arduino_data`, on the given received lines
      at the given times, alert for metric `m`; a call that raises ends the polling, since the
      re-schedule with `root.after` is then skipped. */
  function TickAlertTimes(m: Metric, lines: seq<(string, real)>, rt: Runtime, s: State): seq<real>
    decreases |lines|
  {
    if lines == [] then []
    else
      var o := Tick(Some(lines[0].0), lines[0].1, rt, s);
      (if Alerted(m, o.sent) then [lines[0].1] else [])
        + (if o.raised.Some? then [] else TickAlertTimes(m, lines[1..], rt, o.state))
  }

  /** Which of the received lines hold a value of `m` past its threshold, with their times,
      up to the first call that raises. */
  function TickTriggers(m: Metric, lines: seq<(string, real)>, rt: Runtime, s: State): seq<(bool, real)>
    decreases |lines|
  {
    if lines == [] then []
    else
      var o := Tick(Some(lines[0].0), lines[0].1, rt, s);
      [(PastThreshold(m, ScanLine(Strip(lines[0].0), rt)), lines[0].1)]
        + (if o.raised.Some? then [] else TickTriggers(m, lines[1..], rt, o.state))
  }

  /** Successive calls of `read_arduino_data` follow the cooldown rule: each metric alerts
      exactly when `Replay` says, from its last recorded alert. */
  lemma {:induction false} TickFollowsReplay(m: Metric, lines: seq<(string, real)>, rt: Runtime, s: State)
    ensures TickAlertTimes(m, lines, rt, s) == Replay(TickTriggers(m, lines, rt, s), MetricAlert(m, s).lastTime)
    decreases |lines|
  {
    if lines != [] {
      var (line, now) := lines[0];
      var o := Tick(Some(line), now, rt, s);
      TickMetricAlert(m, line, now, rt, s);
      if o.raised.None? {
        TickFollowsReplay(m, lines[1..], rt, o.state);
      }
      var ts := TickTriggers(m, lines, rt, s);
      assert ts[0] == (PastThreshold(m, ScanLine(Strip(line), rt)), now);
      assert ts[1..] == if o.raised.Some? then [] else TickTriggers(m, lines[1..], rt, o.state);
    }
  }

  /** So over successive calls of `read_arduino_data`, whatever the lines and their times, the
      alerts of each metric come at least 300 s after its last recorded alert and at least
      300 s apart from each other. */
  lemma TickAlertsSpaced(m: Metric, lines: seq<(string, real)>, rt: Runtime, s: State)
    ensures var fired := TickAlertTimes(m, lines, rt, s);
      (fired != [] ==> fired[0] - MetricAlert(m, s).lastTime >= CooldownSeconds)
      && forall i :: 0 <= i < |fired| - 1 ==> fired[i + 1] - fired[i] >= CooldownSeconds
  {
    TickFollowsReplay(m, lines, rt, s);
    ReplaySpacing(TickTriggers(m, lines, rt, s), MetricAlert(m, s).lastTime);
  }

  /** The trim of `update_graph`: at most `MaxDataPoints` temperatures leave everything as it
      is; past that, the oldest element of every series is dropped (of the gas series only
      when it has one) and the order of the rest is kept; popping an empty humidity or noise
      series raises IndexError after the pops before it (the temperature series, and the
      humidity series when noise is the empty one), leaving the rest as it was. Alerts and
      notifications are untouched. */
  lemma TrimEvictsOldest(s: State)
    ensures var o := Trim(s);
      && o.sent == []
      && o.state.temp == s.temp && o.state.humidity == s.humidity && o.state.noise == s.noise && o.state.mq2 == s.mq2
      && (|s.temperatures| <= MaxDataPoints ==> o == Outcome(s, [], None))
      && (|s.temperatures| > MaxDataPoints && s.humidities != [] && s.noiseLevels != [] ==>
            && o.raised == None
            && o.state.temperatures == s.temperatures[1..]
            && o.state.humidities == s.humidities[1..]
            && o.state.noiseLevels == s.noiseLevels[1..]
            && o.state.mq2Levels == if s.mq2Levels == [] then [] else s.mq2Levels[1..])
      && (|s.temperatures| > MaxDataPoints && s.humidities == [] ==>
            o == Outcome(s.(temperatures := s.temperatures[1..]), [], Some(IndexError)))
      && (|s.temperatures| > MaxDataPoints && s.humidities != [] && s.noiseLevels == [] ==>
            o == Outcome(s.(temperatures := s.temperatures[1..], humidities := s.humidities[1..]), [], Some(IndexError)))
  {
  }

  /** A full buffer of 101 temperatures ends up holding readings 2 to 101, in order. */
  lemma TrimOverflowByOne(s: State)
    requires |s.temperatures| == MaxDataPoints + 1
    ensures var o := Trim(s).state;
      |o.temperatures| == MaxDataPoints
      && forall i :: 0 <= i < MaxDataPoints ==> o.temperatures[i] == s.temperatures[i + 1]
  {
  }

  /** Because a line appends at most one temperature and a tick that does not raise then trims,
      a temperature series within `MaxDataPoints` stays within it after any tick. */
  lemma TickKeepsBound(received: Option<string>, now: real, rt: Runtime, s: State)
    requires |s.temperatures| <= MaxDataPoints
    ensures |Tick(received, now, rt, s).state.temperatures| <= MaxDataPoints
  {
    if received.Some? {
      MetricsIndependent(ScanLine(Strip(received.value), rt), now, rt, s);
    }
  }
}
