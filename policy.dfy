/** The alerting rule written into both scripts: a reading past its metric's threshold sends a
    push notification unless one was sent for that metric less than 300 seconds earlier. */
module Policy {

  /** Seconds that must pass after a sent alert before the same metric may alert again. */
  const CooldownSeconds: real := 300.0
  /** Temperature alerts at or above this many degrees Celsius. */
  const HighTemperature: real := 40.0
  /** Humidity alerts strictly below the low bound or strictly above the high bound (percent). */
  const HumidityLow: real := 30.0
  const HumidityHigh: real := 70.0
  /** Noise and MQ-2 gas readings alert at or above this raw sensor value. */
  const HighNoise: int := 200
  const HighGas: real := 200.0

  /** A metric's alert bookkeeping: when its last alert was sent and the text shown for it. */
  datatype AlertState = AlertState(lastTime: real, lastMessage: string)

  /** A push message as handed to the notification service. */
  datatype Notification = Notification(title: string, body: string)

  /** At least the cooldown has passed since `last`. */
  predicate CooledDown(now: real, last: real)
  {
    now - last >= CooldownSeconds
  }

  /** The new alert bookkeeping and the notifications sent for one evaluated reading. */
  datatype Verdict = Verdict(alert: AlertState, sent: seq<Notification>)

  /** One evaluation of the rule: a `triggered` reading at time `now` sends `title`/`body` and
      records `now` and the body stamped with `stamp`, when the cooldown has run out since the
      last SENT alert; otherwise nothing is sent and the bookkeeping stays as it was, so the
      cooldown keeps running from the last alert and not from the last evaluation. */
  function Evaluate(triggered: bool, a: AlertState, now: real, title: string, body: string, stamp: string): (v: Verdict)
    ensures |v.sent| <= 1
    ensures v.sent != [] <==> triggered && CooledDown(now, a.lastTime)
    ensures v.sent != [] ==> v.sent[0] == Notification(title, body) && v.alert == AlertState(now, body + " - " + stamp)
    ensures v.sent == [] ==> v.alert == a
  {
    if triggered && now - a.lastTime >= CooldownSeconds then
      Verdict(AlertState(now, body + " - " + stamp), [Notification(title, body)])
    else
      Verdict(a, [])
  }

  /** The cooldown rule on its own: the times at which a metric alerts, for readings given as
      (past its threshold, time) pairs, when its last alert was at `last`. There is at most one
      alert per reading, and each comes at the time of a reading past the threshold. */
  function Replay(readings: seq<(bool, real)>, last: real): (fired: seq<real>)
    ensures |fired| <= |readings|
    ensures forall k :: 0 <= k < |fired| ==> (true, fired[k]) in readings
    decreases |readings|
  {
    if readings == [] then []
    else
      var (triggered, now) := readings[0];
      if triggered && CooledDown(now, last) then [now] + Replay(readings[1..], now)
      else Replay(readings[1..], last)
  }

  /** Whatever the readings and however the clock moves, the first alert comes at least the
      cooldown after `last`, and consecutive alerts of a metric are at least the cooldown
      apart. */
  lemma {:induction false} ReplaySpacing(readings: seq<(bool, real)>, last: real)
    ensures var fired := Replay(readings, last);
      (fired != [] ==> fired[0] - last >= CooldownSeconds)
      && forall i :: 0 <= i < |fired| - 1 ==> fired[i + 1] - fired[i] >= CooldownSeconds
    decreases |readings|
  {
    if readings != [] {
      var (triggered, now) := readings[0];
      if triggered && CooledDown(now, last) {
        ReplaySpacing(readings[1..], now);
        var rest := Replay(readings[1..], now);
        var fired := [now] + rest;
        forall i | 0 <= i < |fired| - 1
          ensures fired[i + 1] - fired[i] >= CooldownSeconds
        {
          if i > 0 {
            assert fired[i] == rest[i - 1] && fired[i + 1] == rest[i];
          }
        }
      } else {
        ReplaySpacing(readings[1..], last);
      }
    }
  }
}
