/** The main screen: it asks for the permissions the app needs, starts and
    stops the sensor service as monitoring is switched on and off, and picks
    the indicator colour for a warning level. The Android version, the
    permissions already granted and the service intents are values; the
    intents sent to the system are recorded in order. */
module Activity {
  import opened ViewModel

  /** Android API levels the activity branches on. */
  const Oreo: int := 26
  const Tiramisu: int := 33

  datatype Permission =
    | Bluetooth
    | BluetoothAdmin
    | AccessWifiState
    | ChangeWifiState
    | PostNotifications
    | BluetoothConnect

  const BasePermissions: seq<Permission> := [Bluetooth, BluetoothAdmin, AccessWifiState, ChangeWifiState]

  /** The permissions the app needs on a given API level: the four radio
      permissions, and from Tiramisu on also notifications and Bluetooth
      connect; none is listed twice. */
  function RequiredPermissions(sdk: int): (ps: seq<Permission>)
    ensures |ps| == if sdk >= Tiramisu then 6 else 4
    ensures ps[..4] == BasePermissions
    ensures PostNotifications in ps <==> sdk >= Tiramisu
    ensures BluetoothConnect in ps <==> sdk >= Tiramisu
    ensures forall i, j :: 0 <= i < j < |ps| ==> ps[i] != ps[j]
  {
    if sdk >= Tiramisu then BasePermissions + [PostNotifications, BluetoothConnect]
    else BasePermissions
  }

  /** The required permissions that are not granted yet. */
  function PermissionsToRequest(required: seq<Permission>, granted: set<Permission>): (missing: seq<Permission>)
    ensures forall p :: p in missing <==> p in required && p !in granted
    ensures |missing| <= |required|
    ensures missing == [] <==> forall p :: p in required ==> p in granted
    decreases |required|
  {
    if required == [] then []
    else if required[0] in granted then PermissionsToRequest(required[1..], granted)
    else [required[0]] + PermissionsToRequest(required[1..], granted)
  }

  /** What requestPermissions does next: ask for the missing permissions,
      or go straight on to the overlay check when nothing is missing. */
  datatype PermissionStep = LaunchPermissionRequest(permissions: seq<Permission>) | CheckOverlayPermission

  /** The intents the activity sends for the sensor service. */
  datatype ServiceRequest = StartForegroundService | StartService | StopService

  /** From Oreo on the service is started as a foreground service. */
  function StartRequest(sdk: int): ServiceRequest
  {
    if sdk >= Oreo then StartForegroundService else StartService
  }

  /** Starts and stops strictly alternate, beginning with a start. */
  ghost predicate Alternating(requests: seq<ServiceRequest>, sdk: int)
  {
    forall i :: 0 <= i < |requests| ==> requests[i] == if i % 2 == 0 then StartRequest(sdk) else StopService
  }

  datatype Color = Green | Yellow | Red

  /** The indicator colour of a warning level: green for none, yellow for
      low, red for every other level. */
  function IndicatorColor(warningLevel: int): (c: Color)
    ensures c == Green <==> warningLevel == 0
    ensures c == Yellow <==> warningLevel == 1
  {
    match warningLevel
    case 0 => Green
    case 1 => Yellow
    case 2 => Red
    case _ => Red
  }

  /** In terms of field strength: green up to the low threshold, yellow up
      to the medium one, red above it. */
  lemma IndicatorColorOfStrength(strength: real)
    ensures IndicatorColor(WarningLevel(strength)) == Green <==> strength <= LowThreshold
    ensures IndicatorColor(WarningLevel(strength)) == Yellow <==> LowThreshold < strength <= MediumThreshold
    ensures IndicatorColor(WarningLevel(strength)) == Red <==> strength > MediumThreshold
  {
  }

  class MainActivity {
    const sdk: int
    const requiredPermissions: seq<Permission>
    var isServiceRunning: bool
    /** Every start or stop intent sent for the sensor service, in order. */
    var requests: seq<ServiceRequest>
    const viewModel: MainViewModel

    /** The running flag is true exactly after a start that no stop has
        followed yet. */
    ghost predicate Valid()
      reads this, viewModel
    {
      && requiredPermissions == RequiredPermissions(sdk)
      && Alternating(requests, sdk)
      && isServiceRunning == (|requests| % 2 == 1)
      && viewModel.Valid()
    }

    /** The view model comes from the activity's view-model store, so an
        activity created again after a configuration change receives the one
        that survived, whose monitoring flag may still be on. */
    constructor (sdk: int, viewModel: MainViewModel)
      requires viewModel.Valid()
      ensures Valid() && this.viewModel == viewModel
      ensures this.sdk == sdk && !isServiceRunning && requests == []
    {
      this.sdk := sdk;
      requiredPermissions := RequiredPermissions(sdk);
      isServiceRunning := false;
      requests := [];
      this.viewModel := viewModel;
    }

    /** Asks for exactly the required permissions not in granted. */
    method RequestPermissions(granted: set<Permission>) returns (step: PermissionStep)
      requires Valid()
      ensures step.CheckOverlayPermission? <==> forall p :: p in requiredPermissions ==> p in granted
      ensures step.LaunchPermissionRequest? ==>
        step.permissions != [] && forall p :: p in step.permissions <==> p in requiredPermissions && p !in granted
    {
      var permissionsToRequest := PermissionsToRequest(requiredPermissions, granted);
      if permissionsToRequest != [] {
        step := LaunchPermissionRequest(permissionsToRequest);
      } else {
        step := CheckOverlayPermission;
      }
    }

    /** Sends a start only when the service is not running. */
    method StartSensorService()
      requires Valid()
      modifies this`isServiceRunning, this`requests
      ensures Valid()
      ensures isServiceRunning
      ensures requests == old(requests) + if old(isServiceRunning) then [] else [StartRequest(sdk)]
    {
      if !isServiceRunning {
        requests := requests + [StartRequest(sdk)];
        isServiceRunning := true;
      }
    }

    /** Sends a stop only when the service is running. */
    method StopSensorService()
      requires Valid()
      modifies this`isServiceRunning, this`requests
      ensures Valid()
      ensures !isServiceRunning
      ensures requests == old(requests) + if old(isServiceRunning) then [StopService] else []
    {
      if isServiceRunning {
        requests := requests + [StopService];
        isServiceRunning := false;
      }
    }

    method OnDestroy()
      requires Valid()
      modifies this`isServiceRunning, this`requests
      ensures Valid()
      ensures !isServiceRunning
      ensures requests == old(requests) + if old(isServiceRunning) then [StopService] else []
    {
      StopSensorService();
    }

    /** The monitoring switch: the view model records the choice, and the
        service is started or stopped to match. */
    method OnMonitoringChanged(monitoring: bool)
      requires Valid()
      modifies this`isServiceRunning, this`requests, viewModel`isMonitoring
      ensures Valid()
      ensures viewModel.isMonitoring == monitoring && isServiceRunning == monitoring
      ensures requests == old(requests) +
        if monitoring == old(isServiceRunning) then []
        else if monitoring then [StartRequest(sdk)]
        else [StopService]
    {
      viewModel.SetMonitoring(monitoring);
      if monitoring {
        StartSensorService();
      } else {
        StopSensorService();
      }
    }
  }

  /** Two starts in a row send one start intent. */
  method StartTwice(activity: MainActivity)
    requires activity.Valid() && !activity.isServiceRunning
    modifies activity
    ensures activity.Valid()
    ensures activity.requests == old(activity.requests) + [StartRequest(activity.sdk)]
  {
    activity.StartSensorService();
    activity.StartSensorService();
  }

  /** A stop on a stopped service sends nothing. */
  method StopWhenStopped(activity: MainActivity)
    requires activity.Valid() && !activity.isServiceRunning
    modifies activity
    ensures activity.Valid()
    ensures activity.requests == old(activity.requests)
  {
    activity.StopSensorService();
  }
}
