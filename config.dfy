/** Constants of config.py that the analytics core reads. */
module Config {
  import opened Wrappers

  /** Mean motion of a perfectly geostationary orbit, revolutions per day (config.py:9). */
  const GEOSYNC_MEAN_MOTION: real := 1.002737909

  /** Catalog (NORAD) identifiers of the NavIC satellites, in declaration order (config.py:12-20). */
  const NAVIK_SATS: seq<(string, int)> := [
    ("IRNSS-1B", 39635),
    ("IRNSS-1C", 40269),
    ("IRNSS-1D", 40547),
    ("IRNSS-1E", 41241),
    ("IRNSS-1F", 41384),
    ("IRNSS-1I", 43286),
    ("NVS-01", 56759)
  ]

  /** Target inclination (degrees) of each satellite's service slot (config.py:32-40). */
  function TargetInclination(name: string): (r: Option<real>)
    ensures r.Some? <==> name in {"IRNSS-1B", "IRNSS-1C", "IRNSS-1D", "IRNSS-1E", "IRNSS-1F", "IRNSS-1I", "NVS-01"}
  {
    match name
    case "IRNSS-1B" => Some(29.0)
    case "IRNSS-1C" => Some(5.0)
    case "IRNSS-1D" => Some(30.0)
    case "IRNSS-1E" => Some(29.0)
    case "IRNSS-1F" => Some(5.0)
    case "IRNSS-1I" => Some(29.0)
    case "NVS-01" => Some(5.0)
    case _ => None
  }

  /** Target longitude (degrees east) of each satellite's service slot (config.py:32-40). */
  function TargetLongitude(name: string): (r: Option<real>)
    ensures r.Some? <==> TargetInclination(name).Some?
  {
    match name
    case "IRNSS-1B" => Some(55.0)
    case "IRNSS-1C" => Some(83.0)
    case "IRNSS-1D" => Some(111.75)
    case "IRNSS-1E" => Some(111.75)
    case "IRNSS-1F" => Some(32.5)
    case "IRNSS-1I" => Some(55.0)
    case "NVS-01" => Some(129.5)
    case _ => None
  }

  /** GDOP quality table, evaluated in this order; the last bound is +infinity (config.py:65-71). */
  const DOP_QUALITY_BOUNDS: seq<(string, real)> := [
    ("Excellent", 2.0),
    ("Good", 4.0),
    ("Moderate", 6.0),
    ("Fair", 8.0)
  ]

  /** Defaults of the analysis parameters (config.py:49-62). */
  const DEFAULT_Z_THRESHOLD: real := 3.5
  const DEFAULT_SMA_THRESHOLD_KM: real := 0.5
  const DEFAULT_INC_THRESHOLD_DEG: real := 0.01
  const DEFAULT_PERSIST_WINDOW: nat := 2
  const DEFAULT_INCLINATION_TOLERANCE: real := 1.0
  const DEFAULT_DRIFT_TOLERANCE_GSO: real := 0.05
  const DEFAULT_DRIFT_TOLERANCE_IGSO: real := 2.0
  const DEFAULT_MIN_MANEUVERS_PER_MONTH: real := 1.0
  const DEFAULT_MAX_MANEUVERS_PER_MONTH: real := 8.0
  const DEFAULT_UNIFORMITY_THRESHOLD: real := 0.8
  const DEFAULT_ELEVATION_MASK_DEG: real := 5.0
  const DEFAULT_TIMESTEP_MINUTES: int := 15
  const DEFAULT_PROP_DURATION_DAYS: real := 1.5
}
