# AURA magnetic-field monitor: a Dafny model

AURA is an Android app that watches the phone's magnetometer and proximity
sensor and warns people with implanted medical devices (pacemakers) about
strong magnetic fields. This project models its decision logic and the
small amount of state around it, one Dafny module per source file:

- `ViewModel` (`viewmodel.dfy`, from `MainViewModel.kt`): the four-level
  warning classifier `WarningLevel` (0 to 3, strict thresholds 100, 300 and
  500 microtesla) and the class `MainViewModel`, whose fields hold the shown
  strength, the shown level and the monitoring flag, with the invariant
  `warningLevel == WarningLevel(magneticStrength)`.
- `Service` (`service.dfy`, from `SensorMonitoringService.kt`): the class
  `SensorMonitoringService`. `ShowWarning` is a global debounce over the
  single field `lastNotificationTime`: a call less than 5000 ms after the
  last posted warning is dropped; otherwise the warning is posted under id
  `1 + level`. `CheckMagneticFieldStrength` dispatches a strength to
  `ShowWarning(3)` plus `DisableConnectivity`, `ShowWarning(2)`,
  `ShowWarning(1)` or nothing; `DisableConnectivity` only posts the level-4
  confirmation, since its radio calls are commented out in the source.
  `CheckProximityWarning` escalates by one level when something is near.
  Each method is specified by a function over the value `Alerts`
  (`lastNotificationTime` plus the warnings posted so far, in order), and
  the class invariant `Debounced` says every posted warning came at least
  5000 ms after the one before it.
- `Activity` (`activity.dfy`, from `MainActivity.kt`): the class
  `MainActivity` with the `isServiceRunning` guard that makes starting and
  stopping the sensor service idempotent (its invariant: starts and stops
  sent so far strictly alternate, and the flag is true exactly after an
  unmatched start), the filter that requests only the permissions not yet
  granted, and the colour the indicator uses for a level.

Clock readings (`System.currentTimeMillis`), the Android API level, the
set of granted permissions and sensor readings are parameters. A strength
is a `real`. Posted notifications and the intents sent for the service are
recorded in sequence fields instead of being shown or sent.

Properties proved beyond the per-method contracts include: the classifier
is monotone and thresholds fall to the lower band; the service dispatches
`ShowWarning(k)` exactly for view-model level `k` and nothing at level 0;
any two posted warnings, of any levels, are 5000 ms apart per warning in
between, even if the clock goes backwards (`DebouncedApart`); the level-4
confirmation after an accepted level-3 warning is always swallowed when
it comes within 5000 ms (`ConfirmationSwallowed`), while a level-3 warning
held back by the debounce can be followed by a confirmation that is posted
alone (`ConfirmationWithoutAlert`); because the strength the proximity path
reads is initialised to 0 and never written, that path never posts
anything (`ProximityNeverWarns`).

The modelled service debounces with one 5000 ms window for all levels. It
has no hysteresis, no counter-based 50 microtesla variant, no 10000 ms
window and no radio re-enable path. The service obtains its view model from
its own store while the activity obtains one from the activity's store, so
they are two different objects; the model keeps them separate.

## Model

| member | source | states |
|---|---|---|
| ViewModel.WarningLevel | app/src/main/java/com/roamoralesgonzalez/aura/viewmodel/MainViewModel.kt:26-34 | the level is in 0..3 and is at least k exactly when the strength strictly exceeds the k-th threshold (100, 300, 500) |
| ViewModel.WarningLevelMonotone | app/src/main/java/com/roamoralesgonzalez/aura/viewmodel/MainViewModel.kt:27-32 | a stronger field never gets a lower level |
| ViewModel.BoundariesFallLow | app/src/main/java/com/roamoralesgonzalez/aura/viewmodel/MainViewModel.kt:28-30 | exactly 500 gives level 2, exactly 300 level 1, exactly 100 level 0 |
| ViewModel.MainViewModel.constructor | app/src/main/java/com/roamoralesgonzalez/aura/viewmodel/MainViewModel.kt:10-17 | initial strength 0, level 0, monitoring off, and the level invariant holds |
| ViewModel.MainViewModel.UpdateMagneticStrength | app/src/main/java/com/roamoralesgonzalez/aura/viewmodel/MainViewModel.kt:19-24 | afterwards the strength is the new one and the level is its classification; monitoring is untouched |
| ViewModel.MainViewModel.UpdateWarningLevel | app/src/main/java/com/roamoralesgonzalez/aura/viewmodel/MainViewModel.kt:26-34 | writes only the level, as the classification of the strength given |
| ViewModel.MainViewModel.SetMonitoring | app/src/main/java/com/roamoralesgonzalez/aura/viewmodel/MainViewModel.kt:36-38 | sets the monitoring flag only, keeping the level invariant |
| Service.MessageFor | app/src/main/java/com/roamoralesgonzalez/aura/service/SensorMonitoringService.kt:174-188 | levels 1 to 3 get their own message; level 4 and every level outside 1..3 get the generic one |
| Service.WarningIdsDistinct | app/src/main/java/com/roamoralesgonzalez/aura/service/SensorMonitoringService.kt:174-198 | levels 1 to 4 are posted under pairwise distinct ids, none equal to the foreground notification id, and levels 1 to 3 under distinct messages |
| Service.InitialDebounced | app/src/main/java/com/roamoralesgonzalez/aura/service/SensorMonitoringService.kt:41-42 | the initial state (last time 0, nothing posted) satisfies the debounce invariant |
| Service.AfterWarning | app/src/main/java/com/roamoralesgonzalez/aura/service/SensorMonitoringService.kt:167-199 | an accepted warning (5000 ms or more since the last one) sets the last time to now and appends one notification with id 1 + level and the level's message; a rejected one changes nothing; earlier notifications never change and the debounce invariant is preserved |
| Service.MagneticCalls | app/src/main/java/com/roamoralesgonzalez/aura/service/SensorMonitoringService.kt:136-153 | the service calls nothing exactly when the view-model level is 0, otherwise first warns at exactly the view-model level, and disables connectivity after it exactly at level 3 |
| Service.ProximityCalls | app/src/main/java/com/roamoralesgonzalez/aura/service/SensorMonitoringService.kt:220-230 | nothing when not near or at level 0; when near, a warning one level above the strength's level (capped at 3), followed by disabling connectivity exactly from level 2 up |
| Service.AfterCalls | app/src/main/java/com/roamoralesgonzalez/aura/service/SensorMonitoringService.kt:167-172 | a run of calls only appends, at most one notification per call, and preserves the debounce invariant |
| Service.DebouncedApart | app/src/main/java/com/roamoralesgonzalez/aura/service/SensorMonitoringService.kt:169-172 | posted warnings i < j, whatever their levels, are at least 5000 * (j - i) ms apart |
| Service.FirstWarningAfterDelay | app/src/main/java/com/roamoralesgonzalez/aura/service/SensorMonitoringService.kt:41-42 | since the last time starts at 0, the first posted warning has a clock reading of at least 5000 |
| Service.QuietAtLowField | app/src/main/java/com/roamoralesgonzalez/aura/service/SensorMonitoringService.kt:136-153 | a strength of at most 100 leaves the debounce state and the posted warnings unchanged |
| Service.AcceptedWarningMatchesLevel | app/src/main/java/com/roamoralesgonzalez/aura/service/SensorMonitoringService.kt:167-198 | when the debounce accepts, the next posted notification has id 1 + level and the message of the reading's level |
| Service.ConfirmationSwallowed | app/src/main/java/com/roamoralesgonzalez/aura/service/SensorMonitoringService.kt:201-218 | above 500, an accepted level-3 warning followed within 5000 ms by the confirmation posts only the level-3 warning |
| Service.ConfirmationWithoutAlert | app/src/main/java/com/roamoralesgonzalez/aura/service/SensorMonitoringService.kt:201-218 | above 500, a suppressed level-3 warning followed by a confirmation outside the window posts only the generic confirmation under id 5 |
| Service.ProximityNeverWarns | app/src/main/java/com/roamoralesgonzalez/aura/service/SensorMonitoringService.kt:220-230 | with the stored strength at its initial 0, the proximity path leaves the state unchanged, near or not |
| Service.SensorMonitoringService.constructor | app/src/main/java/com/roamoralesgonzalez/aura/service/SensorMonitoringService.kt:40-44 | last time 0, nothing posted, not near, stored strength 0, and the debounce invariant holds |
| Service.SensorMonitoringService.ShowWarning | app/src/main/java/com/roamoralesgonzalez/aura/service/SensorMonitoringService.kt:167-199 | the new state is the debounced warning of AfterWarning and the debounce invariant is kept |
| Service.SensorMonitoringService.DisableConnectivity | app/src/main/java/com/roamoralesgonzalez/aura/service/SensorMonitoringService.kt:201-218 | the only effect is a level-4 warning through the debounce |
| Service.SensorMonitoringService.CheckMagneticFieldStrength | app/src/main/java/com/roamoralesgonzalez/aura/service/SensorMonitoringService.kt:136-153 | the new state is the result of running MagneticCalls of the strength with the two clock readings |
| Service.SensorMonitoringService.CheckProximityWarning | app/src/main/java/com/roamoralesgonzalez/aura/service/SensorMonitoringService.kt:220-230 | the new state is the result of running ProximityCalls of the near flag and the stored strength |
| Service.SensorMonitoringService.OnMagneticFieldChanged | app/src/main/java/com/roamoralesgonzalez/aura/service/SensorMonitoringService.kt:114-121 | the view model shows the strength and its level, and the service reacts as CheckMagneticFieldStrength |
| Service.SensorMonitoringService.OnProximityChanged | app/src/main/java/com/roamoralesgonzalez/aura/service/SensorMonitoringService.kt:122-127 | the near flag becomes true exactly when the reading is below the sensor's maximum range (5 without a sensor), then the proximity check runs; a far reading never posts anything |
| Service.SensorMonitoringService.OnDestroy | app/src/main/java/com/roamoralesgonzalez/aura/service/SensorMonitoringService.kt:238-245 | switches the view model's monitoring flag off |
| Activity.RequiredPermissions | app/src/main/java/com/roamoralesgonzalez/aura/MainActivity.kt:35-45 | four distinct radio permissions, plus notifications and Bluetooth connect exactly from API 33 on |
| Activity.PermissionsToRequest | app/src/main/java/com/roamoralesgonzalez/aura/MainActivity.kt:97-99 | a permission is requested exactly when it is required and not granted; empty exactly when all are granted |
| Activity.IndicatorColor | app/src/main/java/com/roamoralesgonzalez/aura/MainActivity.kt:259-264 | green exactly for level 0, yellow exactly for level 1, red otherwise |
| Activity.IndicatorColorOfStrength | app/src/main/java/com/roamoralesgonzalez/aura/MainActivity.kt:259-264 | through the classifier: green up to 100, yellow above 100 up to 300, red above 300 |
| Activity.MainActivity.constructor | app/src/main/java/com/roamoralesgonzalez/aura/MainActivity.kt:35-48 | required permissions fixed by the API level, service not running, nothing sent; the view model is the one handed over by the store, in any valid state |
| Activity.MainActivity.RequestPermissions | app/src/main/java/com/roamoralesgonzalez/aura/MainActivity.kt:96-106 | launches a request for exactly the missing permissions, or goes to the overlay check exactly when none is missing |
| Activity.MainActivity.StartSensorService | app/src/main/java/com/roamoralesgonzalez/aura/MainActivity.kt:125-134 | sends one start only when not running (a foreground-service start from API 26 on), then running; starts and stops keep alternating |
| Activity.MainActivity.StopSensorService | app/src/main/java/com/roamoralesgonzalez/aura/MainActivity.kt:136-141 | sends one stop only when running, then not running; starts and stops keep alternating |
| Activity.MainActivity.OnDestroy | app/src/main/java/com/roamoralesgonzalez/aura/MainActivity.kt:143-146 | afterwards the service is not running |
| Activity.MainActivity.OnMonitoringChanged | app/src/main/java/com/roamoralesgonzalez/aura/MainActivity.kt:86-89 | the view model's monitoring flag and the running flag both become the requested value, with at most one intent sent |
| Activity.StartTwice | app/src/main/java/com/roamoralesgonzalez/aura/MainActivity.kt:125-134 | two starts on a stopped service send exactly one start |
| Activity.StopWhenStopped | app/src/main/java/com/roamoralesgonzalez/aura/MainActivity.kt:136-141 | a stop on a stopped service sends nothing |

## Left out

- The field magnitude `sqrt(x*x + y*y + z*z)` over floats: the strength is an abstract `real`, so NaN, rounding and single-precision comparisons are not modelled.
- Clock values are unbounded integers: the 64-bit subtraction in the debounce is not modelled, because it cannot overflow for clock readings between 0 and 2^63.
- Coroutine launches (the view-model update in the service and inside `updateMagneticStrength`) are modelled as running at once, in program order; reorderings between the launched update and the service's own check are not modelled.
- Notification building: channel creation, titles and texts (only the choice of message is modelled), icons, priorities and the foreground notification posted by `startForeground`.
- The try/catch in `disableConnectivity`: nothing left in its body raises beyond posting, so the error path is not modelled.
- Sensor registration and unregistration, logging, `onAccuracyChanged`, `onBind` and the `ViewModelStoreOwner` singleton.
- The Compose UI (`MainScreen`, the indicator's drawing, animation and sweep angle), the overlay-permission check, the permission-result callback and the floating-bubble launch: user-interface and intent plumbing; only the colour mapping is modelled.
- `util/ConnectivityManager.kt` and `service/ForegroundService.kt` are not part of this model: wrappers over platform services and service boilerplate that the modelled code does not call.
- Activity re-creation is captured only by handing the constructor an existing view model, whose monitoring flag may still be on while the new activity's `isServiceRunning` starts false; the store that retains view models across configuration changes is not modelled.
