/** The UI-facing state of the monitor: the last field strength reported,
    the four-level warning classification of that strength, and whether
    monitoring is switched on. */
module ViewModel {

  /** Lower bounds (exclusive, in microtesla) of warning levels 1, 2 and 3. */
  const LowThreshold: real := 100.0
  const MediumThreshold: real := 300.0
  const HighThreshold: real := 500.0

  /** The threshold a strength must exceed to reach level `k`, for 1 <= k <= 3. */
  function Threshold(k: int): real
    requires 1 <= k <= 3
  {
    if k == 1 then LowThreshold else if k == 2 then MediumThreshold else HighThreshold
  }

  /** The warning level of a field strength: 0 (none) up to 3 (high).
      A level is reached exactly when its threshold is strictly exceeded,
      so a strength equal to a threshold falls to the band below. */
  function WarningLevel(strength: real): (level: int)
    ensures 0 <= level <= 3
    ensures forall k :: 1 <= k <= 3 ==> (level >= k <==> strength > Threshold(k))
  {
    if strength > HighThreshold then 3
    else if strength > MediumThreshold then 2
    else if strength > LowThreshold then 1
    else 0
  }

  /** A stronger field never gets a lower warning level. */
  lemma WarningLevelMonotone(s1: real, s2: real)
    requires s1 <= s2
    ensures WarningLevel(s1) <= WarningLevel(s2)
  {
  }

  /** The thresholds themselves belong to the lower band. */
  lemma BoundariesFallLow()
    ensures WarningLevel(HighThreshold) == 2
    ensures WarningLevel(MediumThreshold) == 1
    ensures WarningLevel(LowThreshold) == 0
  {
  }

  class MainViewModel {
    var magneticStrength: real
    var warningLevel: int
    var isMonitoring: bool

    /** The level shown is always the classification of the strength shown. */
    ghost predicate Valid()
      reads this
    {
      warningLevel == WarningLevel(magneticStrength)
    }

    constructor ()
      ensures Valid()
      ensures magneticStrength == 0.0 && warningLevel == 0 && !isMonitoring
    {
      magneticStrength := 0.0;
      warningLevel := 0;
      isMonitoring := false;
    }

    /** Records a new strength and reclassifies it. */
    method UpdateMagneticStrength(strength: real)
      modifies this`magneticStrength, this`warningLevel
      ensures Valid()
      ensures magneticStrength == strength && warningLevel == WarningLevel(strength)
    {
      magneticStrength := strength;
      UpdateWarningLevel(strength);
    }

    method UpdateWarningLevel(strength: real)
      modifies this`warningLevel
      ensures warningLevel == WarningLevel(strength)
    {
      warningLevel := WarningLevel(strength);
    }

    /** Switches monitoring on or off; strength and level stay as they are. */
    method SetMonitoring(isActive: bool)
      requires Valid()
      modifies this`isMonitoring
      ensures Valid()
      ensures isMonitoring == isActive
    {
      isMonitoring := isActive;
    }
  }
}
