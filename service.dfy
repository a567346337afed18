/** The sensor monitoring service: it classifies each magnetic reading,
    raises debounced warning notifications, asks for connectivity to be
    disabled at the highest level, and escalates when the proximity sensor
    reports something near. Clock readings are parameters (milliseconds);
    posted notifications are recorded in order instead of being shown. */
module Service {
  import opened ViewModel

  /** Minimum time between two posted warnings, in milliseconds. */
  const NotificationDelay: int := 5000
  /** Base notification id; a warning of level k is posted under id NotificationId + k. */
  const NotificationId: int := 1
  /** The level disableConnectivity passes to showWarning for its confirmation. */
  const ConfirmationLevel: int := 4
  /** The range assumed when the device has no proximity sensor. */
  const DefaultProximityRange: real := 5.0

  datatype Option<T> = None | Some(value: T)

  /** Which title and text a warning notification carries. */
  datatype Message = Caution | Significant | Danger | Generic

  function MessageFor(level: int): (m: Message)
    ensures m == Generic <==> !(1 <= level <= 3)
  {
    match level
    case 1 => Caution
    case 2 => Significant
    case 3 => Danger
    case _ => Generic
  }

  datatype Notification = Notification(id: int, message: Message, time: int)

  function NotificationFor(level: int, now: int): Notification
  {
    Notification(NotificationId + level, MessageFor(level), now)
  }

  /** Each warning level, and the confirmation, is posted under its own id,
      and none reuses the id of the service's foreground notification. */
  lemma WarningIdsDistinct(k1: int, k2: int, t1: int, t2: int)
    requires 1 <= k1 <= ConfirmationLevel && 1 <= k2 <= ConfirmationLevel
    ensures NotificationFor(k1, t1).id != NotificationId
    ensures NotificationFor(k1, t1).id == NotificationFor(k2, t2).id <==> k1 == k2
    ensures k1 != k2 && k1 <= 3 && k2 <= 3 ==> NotificationFor(k1, t1).message != NotificationFor(k2, t2).message
  {
  }

  /** The debounce state (the time of the last posted warning) together with
      every warning posted so far. */
  datatype Alerts = Alerts(lastNotificationTime: int, posted: seq<Notification>)

  const InitialAlerts: Alerts := Alerts(0, [])

  /** The time a posted warning at position i is measured against: the one
      before it, or the initial value 0 of lastNotificationTime. */
  function PreviousTime(posted: seq<Notification>, i: nat): int
    requires i <= |posted|
  {
    if i == 0 then 0 else posted[i - 1].time
  }

  /** Every posted warning came at least NotificationDelay after the one
      before it, and lastNotificationTime is the time of the latest one. */
  ghost predicate Debounced(a: Alerts)
  {
    && (forall i :: 0 <= i < |a.posted| ==> a.posted[i].time - PreviousTime(a.posted, i) >= NotificationDelay)
    && a.lastNotificationTime == PreviousTime(a.posted, |a.posted|)
  }

  lemma InitialDebounced()
    ensures Debounced(InitialAlerts)
  {
  }

  predicate Accepts(lastNotificationTime: int, now: int)
  {
    now - lastNotificationTime >= NotificationDelay
  }

  /** showWarning(level) with the clock reading now. */
  function AfterWarning(a: Alerts, level: int, now: int): (b: Alerts)
    ensures |b.posted| == |a.posted| + (if Accepts(a.lastNotificationTime, now) then 1 else 0)
    ensures b.posted[..|a.posted|] == a.posted
    ensures Accepts(a.lastNotificationTime, now) ==>
      b.lastNotificationTime == now && b.posted[|a.posted|] == NotificationFor(level, now)
    ensures !Accepts(a.lastNotificationTime, now) ==> b == a
    ensures Debounced(a) ==> Debounced(b)
  {
    if !Accepts(a.lastNotificationTime, now) then a
    else Alerts(now, a.posted + [NotificationFor(level, now)])
  }

  /** The calls the service makes in reaction to a reading. */
  datatype Call = Warn(level: int) | Disable

  /** The calls checkMagneticFieldStrength makes for a strength: the warning
      of the strength's level, followed by disabling connectivity at level 3,
      and nothing at level 0. */
  function MagneticCalls(strength: real): (calls: seq<Call>)
    ensures calls == [] <==> WarningLevel(strength) == 0
    ensures calls != [] ==> calls[0] == Warn(WarningLevel(strength))
    ensures |calls| <= 2
    ensures |calls| == 2 <==> WarningLevel(strength) == 3
    ensures |calls| == 2 ==> calls[1] == Disable
  {
    if strength > HighThreshold then [Warn(3), Disable]
    else if strength > MediumThreshold then [Warn(2)]
    else if strength > LowThreshold then [Warn(1)]
    else []
  }

  /** The calls checkProximityWarning makes: when something is near, a
      strength that has a level is escalated one level (capped at 3), and
      disabling connectivity follows a level-3 warning; nothing otherwise. */
  function ProximityCalls(isNear: bool, strength: real): (calls: seq<Call>)
    ensures !isNear || WarningLevel(strength) == 0 ==> calls == []
    ensures isNear && WarningLevel(strength) > 0 ==>
      calls != [] && calls[0] == Warn(if WarningLevel(strength) == 3 then 3 else WarningLevel(strength) + 1)
    ensures |calls| <= 2
    ensures |calls| == 2 <==> isNear && WarningLevel(strength) >= 2
    ensures |calls| == 2 ==> calls[1] == Disable
  {
    if isNear then
      if strength > MediumThreshold then [Warn(3), Disable]
      else if strength > LowThreshold then [Warn(2)]
      else []
    else []
  }

  function AfterCall(a: Alerts, call: Call, now: int): Alerts
  {
    match call
    case Warn(level) => AfterWarning(a, level, now)
    case Disable => AfterWarning(a, ConfirmationLevel, now)
  }

  /** Runs calls in order, the k-th reading the clock as clock[k]. */
  function AfterCalls(a: Alerts, calls: seq<Call>, clock: seq<int>): (b: Alerts)
    requires |calls| <= |clock|
    ensures |a.posted| <= |b.posted| <= |a.posted| + |calls|
    ensures b.posted[..|a.posted|] == a.posted
    ensures Debounced(a) ==> Debounced(b)
    decreases |calls|
  {
    if calls == [] then a
    else AfterCalls(AfterCall(a, calls[0], clock[0]), calls[1..], clock[1..])
  }

  /** Unfoldings of AfterCalls for the one- and two-call reactions. */
  lemma AfterOneCall(a: Alerts, c: Call, now: int, later: int)
    ensures AfterCalls(a, [c], [now, later]) == AfterCall(a, c, now)
  {
  }

  lemma AfterTwoCalls(a: Alerts, c1: Call, c2: Call, now: int, later: int)
    ensures AfterCalls(a, [c1, c2], [now, later]) == AfterCall(AfterCall(a, c1, now), c2, later)
  {
    var a1 := AfterCall(a, c1, now);
    assert AfterCalls(a, [c1, c2], [now, later]) == AfterCalls(a1, [c2], [later]);
    assert AfterCalls(a1, [c2], [later]) == AfterCalls(AfterCall(a1, c2, later), [], []);
  }

  /** The debounce is global: any two posted warnings, whatever their levels,
      lie NotificationDelay apart for every warning from the first to the
      second, even if the clock went backwards in between. */
  lemma {:induction false} DebouncedApart(a: Alerts, i: nat, j: nat)
    requires Debounced(a)
    requires i < j < |a.posted|
    ensures a.posted[j].time - a.posted[i].time >= NotificationDelay * (j - i)
    decreases j - i
  {
    assert a.posted[j].time - PreviousTime(a.posted, j) >= NotificationDelay;
    if i + 1 < j {
      DebouncedApart(a, i, j - 1);
    }
  }

  /** The first warning ever posted needs a clock past NotificationDelay. */
  lemma FirstWarningAfterDelay(a: Alerts)
    requires Debounced(a) && a.posted != []
    ensures a.posted[0].time >= NotificationDelay
  {
  }

  /** A field at or below the low threshold posts nothing and leaves the
      debounce state alone. */
  lemma QuietAtLowField(a: Alerts, strength: real, now: int, later: int)
    requires strength <= LowThreshold
    ensures AfterCalls(a, MagneticCalls(strength), [now, later]) == a
  {
  }

  /** When the debounce lets a magnetic warning through, it is posted under
      the id and message of the reading's warning level. */
  lemma AcceptedWarningMatchesLevel(a: Alerts, strength: real, now: int, later: int)
    requires WarningLevel(strength) > 0 && Accepts(a.lastNotificationTime, now)
    ensures var b := AfterCalls(a, MagneticCalls(strength), [now, later]);
      |b.posted| > |a.posted| && b.posted[|a.posted|] == NotificationFor(WarningLevel(strength), now)
  {
  }

  /** The confirmation that follows an accepted level-3 warning comes within
      the debounce window and is swallowed: only the level-3 warning is posted. */
  lemma ConfirmationSwallowed(a: Alerts, strength: real, now: int, later: int)
    requires strength > HighThreshold
    requires Accepts(a.lastNotificationTime, now)
    requires later - now < NotificationDelay
    ensures AfterCalls(a, MagneticCalls(strength), [now, later]).posted == a.posted + [NotificationFor(3, now)]
  {
  }

  /** The other way round: a level-3 warning held back by the debounce can
      be followed by a confirmation that gets through, so the user sees the
      confirmation under id 5 without the alert it confirms. */
  lemma ConfirmationWithoutAlert(a: Alerts, strength: real, now: int, later: int)
    requires strength > HighThreshold
    requires !Accepts(a.lastNotificationTime, now) && Accepts(a.lastNotificationTime, later)
    ensures AfterCalls(a, MagneticCalls(strength), [now, later]).posted
      == a.posted + [Notification(NotificationId + ConfirmationLevel, Generic, later)]
  {
  }

  /** The strength checkProximityWarning looks at is never written, so the
      proximity path never posts anything. */
  lemma ProximityNeverWarns(a: Alerts, isNear: bool, now: int, later: int)
    ensures AfterCalls(a, ProximityCalls(isNear, 0.0), [now, later]) == a
  {
  }

  /** The proximity predicate: the reading is below the sensor's maximum
      range, or below DefaultProximityRange when there is no sensor. */
  function IsNear(reading: real, maximumRange: Option<real>): bool
  {
    reading < (if maximumRange.Some? then maximumRange.value else DefaultProximityRange)
  }

  class SensorMonitoringService {
    var lastNotificationTime: int
    var posted: seq<Notification>
    var isNearDevice: bool
    /** Initialised to 0 and never written afterwards (see ProximityNeverWarns). */
    const magneticFieldStrength: real
    const viewModel: MainViewModel

    function State(): Alerts
      reads this
    {
      Alerts(lastNotificationTime, posted)
    }

    ghost predicate Valid()
      reads this, viewModel
    {
      Debounced(State()) && viewModel.Valid()
    }

    constructor ()
      ensures Valid() && fresh(viewModel)
      ensures State() == InitialAlerts && !isNearDevice && magneticFieldStrength == 0.0
    {
      lastNotificationTime := 0;
      posted := [];
      isNearDevice := false;
      magneticFieldStrength := 0.0;
      viewModel := new MainViewModel();
    }

    /** Posts a warning of the given level unless one was posted less than
        NotificationDelay before now. */
    method ShowWarning(level: int, now: int)
      requires Valid()
      modifies this`lastNotificationTime, this`posted
      ensures Valid()
      ensures State() == AfterWarning(old(State()), level, now)
    {
      if now - lastNotificationTime < NotificationDelay {
        return;
      }
      lastNotificationTime := now;
      posted := posted + [NotificationFor(level, now)];
    }

    /** The radio calls are switched off; only the confirmation remains. */
    method DisableConnectivity(now: int)
      requires Valid()
      modifies this`lastNotificationTime, this`posted
      ensures Valid()
      ensures State() == AfterCall(old(State()), Disable, now)
    {
      ShowWarning(ConfirmationLevel, now);
    }

    /** now is the clock reading of the warning, later that of the
        confirmation inside DisableConnectivity. */
    method CheckMagneticFieldStrength(strength: real, now: int, later: int)
      requires Valid()
      modifies this`lastNotificationTime, this`posted
      ensures Valid()
      ensures State() == AfterCalls(old(State()), MagneticCalls(strength), [now, later])
    {
      ghost var before := State();
      if strength > HighThreshold {
        ShowWarning(3, now);
        DisableConnectivity(later);
        AfterTwoCalls(before, Warn(3), Disable, now, later);
      } else if strength > MediumThreshold {
        ShowWarning(2, now);
        AfterOneCall(before, Warn(2), now, later);
      } else if strength > LowThreshold {
        ShowWarning(1, now);
        AfterOneCall(before, Warn(1), now, later);
      }
    }

    method CheckProximityWarning(now: int, later: int)
      requires Valid()
      modifies this`lastNotificationTime, this`posted
      ensures Valid()
      ensures State() == AfterCalls(old(State()), ProximityCalls(isNearDevice, magneticFieldStrength), [now, later])
    {
      ghost var before := State();
      if isNearDevice {
        if magneticFieldStrength > MediumThreshold {
          ShowWarning(3, now);
          DisableConnectivity(later);
          AfterTwoCalls(before, Warn(3), Disable, now, later);
        } else if magneticFieldStrength > LowThreshold {
          ShowWarning(2, now);
          AfterOneCall(before, Warn(2), now, later);
        }
      }
    }

    /** A magnetic reading: the view model takes the strength, then the
        service classifies it. */
    method OnMagneticFieldChanged(strength: real, now: int, later: int)
      requires Valid()
      modifies this`lastNotificationTime, this`posted, viewModel`magneticStrength, viewModel`warningLevel
      ensures Valid()
      ensures viewModel.magneticStrength == strength && viewModel.warningLevel == WarningLevel(strength)
      ensures State() == AfterCalls(old(State()), MagneticCalls(strength), [now, later])
    {
      viewModel.UpdateMagneticStrength(strength);
      CheckMagneticFieldStrength(strength, now, later);
    }

    /** A proximity reading against the sensor's maximum range (None when the
        device has no proximity sensor). */
    method OnProximityChanged(reading: real, maximumRange: Option<real>, now: int, later: int)
      requires Valid()
      modifies this`isNearDevice, this`lastNotificationTime, this`posted
      ensures Valid()
      ensures isNearDevice == IsNear(reading, maximumRange)
      ensures State() == AfterCalls(old(State()), ProximityCalls(isNearDevice, magneticFieldStrength), [now, later])
      ensures !IsNear(reading, maximumRange) ==> State() == old(State())
    {
      isNearDevice := IsNear(reading, maximumRange);
      CheckProximityWarning(now, later);
    }

    method OnDestroy()
      requires Valid()
      modifies viewModel`isMonitoring
      ensures Valid()
      ensures !viewModel.isMonitoring
    {
      viewModel.SetMonitoring(false);
    }
  }
}
