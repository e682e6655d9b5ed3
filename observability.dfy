/**
 * The monitoring service: request, error and assessment counters, the
 * alerts a request can raise, the health status derived from the error
 * rate, and the uptime rendering.
 */
module Observability {
  import opened Text

  // ---------------------------------------------------------------------
  // Alert thresholds
  // ---------------------------------------------------------------------

  /** Error rate, in percent, at which the status leaves `healthy`. */
  const ErrorRateWarning: real := 1.0
  /** Error rate, in percent, at which the status becomes `critical` and above which an alert fires. */
  const ErrorRateCritical: real := 5.0
  /** Response time, in milliseconds, above which a request raises a slow-response alert. */
  const ResponseTimeCritical := 3000

  /** `(errors / requests) * 100`, and 0 when nothing has been requested. */
  function ErrorRate(errors: nat, requests: nat): (rate: real)
    ensures errors <= requests ==> 0.0 <= rate <= 100.0
    ensures requests == 0 ==> rate == 0.0
  {
    if requests > 0 then errors as real / requests as real * 100.0 else 0.0
  }

  // ---------------------------------------------------------------------
  // Alerts
  // ---------------------------------------------------------------------

  datatype AlertSeverity = CriticalAlert | WarningAlert

  datatype AlertData =
    | ErrorRateData(errorRate: real, rateThreshold: real)
    | SlowResponseData(endpoint: string, duration: int, timeThreshold: int)

  datatype Alert = Alert(severity: AlertSeverity, message: string, data: AlertData, timestamp: string, source: string)

  /** `triggerAlert(severity, message, data)`: the alert it builds; the log line it writes is left out. */
  function TriggerAlert(severity: AlertSeverity, message: string, data: AlertData, now: string): (a: Alert)
    ensures a.severity == severity && a.message == message && a.data == data
    ensures a.source == "VERCEL-4" && a.timestamp == now
  {
    Alert(severity, message, data, now, "VERCEL-4")
  }

  /**
   * The alerts `trackRequest` raises once its counters are updated: one for
   * an error rate strictly above 5%, one for a duration strictly above 3000 ms.
   */
  function RequestAlerts(errors: nat, requests: nat, endpoint: string, duration: int, now: string)
    : (alerts: seq<Alert>)
    ensures |alerts| <= 2
    ensures (exists a :: a in alerts && a.severity == CriticalAlert) <==> ErrorRate(errors, requests) > ErrorRateCritical
    ensures (exists a :: a in alerts && a.severity == WarningAlert) <==> duration > ResponseTimeCritical
  {
    var rate := ErrorRate(errors, requests);
    var critical := if rate > ErrorRateCritical
      then [TriggerAlert(CriticalAlert, "Error rate exceeded threshold", ErrorRateData(rate, ErrorRateCritical), now)]
      else [];
    var slow := if duration > ResponseTimeCritical
      then [TriggerAlert(WarningAlert, "Slow response time", SlowResponseData(endpoint, duration, ResponseTimeCritical), now)]
      else [];
    assert forall a :: a in critical ==> a.severity == CriticalAlert;
    assert forall a :: a in slow ==> a.severity == WarningAlert;
    if critical != [] then assert critical[0] in critical + slow; critical + slow
    else if slow != [] then assert slow[0] in critical + slow; critical + slow
    else critical + slow
  }

  /** A response of exactly 3000 ms, or an error rate of exactly 5%, raises nothing. */
  lemma ThresholdsAreStrict(endpoint: string, now: string)
    ensures RequestAlerts(1, 20, endpoint, 3000, now) == []
  {
    assert ErrorRate(1, 20) == 5.0;
  }

  // ---------------------------------------------------------------------
  // Health status
  // ---------------------------------------------------------------------

  datatype Status = Healthy | Degraded | Critical

  /** The status `getMetrics` reports for an error rate in percent. */
  function StatusOf(errorRate: real): (s: Status)
    ensures s == Healthy <==> errorRate < ErrorRateWarning
    ensures s == Degraded <==> ErrorRateWarning <= errorRate < ErrorRateCritical
    ensures s == Critical <==> errorRate >= ErrorRateCritical
  {
    if errorRate < ErrorRateWarning then Healthy
    else if errorRate < ErrorRateCritical then Degraded
    else Critical
  }

  /** How bad a status is: healthy 0, degraded 1, critical 2. */
  function Rank(s: Status): nat
  {
    match s
    case Healthy => 0
    case Degraded => 1
    case Critical => 2
  }

  /** A higher error rate never reports a better status. */
  lemma StatusIsMonotone(lower: real, higher: real)
    requires lower <= higher
    ensures Rank(StatusOf(lower)) <= Rank(StatusOf(higher))
  {
  }

  /** Any error-rate alert comes with a critical status; a rate of exactly 5% is critical without one. */
  lemma AlertMeansCritical(errors: nat, requests: nat, endpoint: string, duration: int, now: string)
    ensures (exists a :: a in RequestAlerts(errors, requests, endpoint, duration, now) && a.severity == CriticalAlert)
            ==> StatusOf(ErrorRate(errors, requests)) == Critical
    ensures StatusOf(ErrorRate(1, 20)) == Critical
    ensures !exists a :: a in RequestAlerts(1, 20, endpoint, duration, now) && a.severity == CriticalAlert
  {
    assert ErrorRate(1, 20) == 5.0;
  }

  // ---------------------------------------------------------------------
  // Uptime
  // ---------------------------------------------------------------------

  /** The two largest non-zero units of an uptime, as `formatUptime` chooses them. */
  datatype Uptime =
    | DaysHours(days: nat, hours: nat)
    | HoursMinutes(hours: nat, minutes: nat)
    | MinutesSeconds(minutes: nat, seconds: nat)
    | SecondsOnly(elapsedSeconds: int)

  /**
   * The units `formatUptime(ms)` reports. `Math.floor` by a positive divisor
   * is Dafny's integer division; the remainders are taken only of positive
   * numbers, where JavaScript's `%` agrees with Dafny's.
   */
  function UptimeOf(ms: int): (u: Uptime)
    ensures u.DaysHours? ==> u.days > 0 && u.hours < 24 && u.days * 24 + u.hours == ms / 3600000
    ensures u.HoursMinutes? ==> 0 < u.hours < 24 && u.minutes < 60 && u.hours * 60 + u.minutes == ms / 60000
    ensures u.MinutesSeconds? ==> 0 < u.minutes < 60 && u.seconds < 60 && u.minutes * 60 + u.seconds == ms / 1000
    ensures u.SecondsOnly? ==> u.elapsedSeconds < 60 && u.elapsedSeconds == ms / 1000
    ensures ms >= 86400000 <==> u.DaysHours?
  {
    var seconds := ms / 1000;
    var minutes := seconds / 60;
    var hours := minutes / 60;
    var days := hours / 24;
    if days > 0 then DaysHours(days, hours % 24)
    else if hours > 0 then HoursMinutes(hours, minutes % 60)
    else if minutes > 0 then MinutesSeconds(minutes, seconds % 60)
    else SecondsOnly(seconds)
  }

  /** How the chosen units are written. */
  function Render(u: Uptime): string
  {
    match u
    case DaysHours(d, h) => NatToString(d) + "d " + NatToString(h) + "h"
    case HoursMinutes(h, m) => NatToString(h) + "h " + NatToString(m) + "m"
    case MinutesSeconds(m, s) => NatToString(m) + "m " + NatToString(s) + "s"
    case SecondsOnly(s) => IntToString(s) + "s"
  }

  /** `formatUptime(ms)`. */
  function FormatUptime(ms: int): (r: string)
    ensures |r| >= 2
  {
    Render(UptimeOf(ms))
  }

  /** The reported units bound the elapsed time: what is dropped is less than one of the smallest unit shown. */
  lemma UptimeBoundsElapsed(ms: int)
    requires ms >= 0
    ensures match UptimeOf(ms)
      case DaysHours(d, h) => (d * 24 + h) * 3600000 <= ms < (d * 24 + h + 1) * 3600000
      case HoursMinutes(h, m) => (h * 60 + m) * 60000 <= ms < (h * 60 + m + 1) * 60000
      case MinutesSeconds(m, s) => (m * 60 + s) * 1000 <= ms < (m * 60 + s + 1) * 1000
      case SecondsOnly(s) => 0 <= s * 1000 <= ms < (s + 1) * 1000
  {
  }

  /** Ninety thousand seconds read as one day and one hour. */
  lemma OneDayOneHour()
    ensures UptimeOf(90000000) == DaysHours(1, 1)
    ensures FormatUptime(90000000) == "1d 1h"
  {
  }

  // ---------------------------------------------------------------------
  // The service
  // ---------------------------------------------------------------------

  /** What `getMetrics` reports; the error rate's two-decimal text is left out. */
  datatype MetricsReport = MetricsReport(uptime: int, uptimeFormatted: string, requests: nat, errors: nat,
                                         errorRate: real, assessments: nat, status: Status)

  /** `MonitoringService` and its `metrics` counters. */
  class MonitoringService {
    var requests: nat
    var errors: nat
    var assessments: nat
    var startTime: int

    /** Every error is a request. */
    ghost predicate Valid()
      reads this
    {
      errors <= requests
    }

    /** The service starts with zero counters at clock reading `now`. */
    constructor (now: int)
      ensures Valid()
      ensures requests == 0 && errors == 0 && assessments == 0 && startTime == now
    {
      requests, errors, assessments, startTime := 0, 0, 0, now;
    }

    /** `trackRequest(endpoint, duration, statusCode)`, returning the alerts it raises. */
    method TrackRequest(endpoint: string, duration: int, statusCode: int, now: string) returns (alerts: seq<Alert>)
      requires Valid()
      modifies this
      ensures Valid()
      ensures requests == old(requests) + 1
      ensures errors == old(errors) + (if statusCode >= 400 then 1 else 0)
      ensures assessments == old(assessments) && startTime == old(startTime)
      ensures alerts == RequestAlerts(errors, requests, endpoint, duration, now)
    {
      requests := requests + 1;
      if statusCode >= 400 {
        errors := errors + 1;
      }
      alerts := RequestAlerts(errors, requests, endpoint, duration, now);
    }

    /** `trackAssessment(runId, fluidId, duration)`: only the assessment count moves; the log line is left out. */
    method TrackAssessment(runId: string, fluidId: string, duration: int)
      requires Valid()
      modifies this
      ensures Valid()
      ensures assessments == old(assessments) + 1
      ensures requests == old(requests) && errors == old(errors) && startTime == old(startTime)
    {
      assessments := assessments + 1;
    }

    /** `getMetrics()` at clock reading `now`. */
    function GetMetrics(now: int): (r: MetricsReport)
      reads this
      ensures r.requests == requests && r.errors == errors && r.assessments == assessments
      ensures r.uptime == now - startTime && r.uptimeFormatted == FormatUptime(now - startTime)
      ensures requests == 0 ==> r.errorRate == 0.0 && r.status == Healthy
      ensures r.status == Critical <==> r.errorRate >= ErrorRateCritical
      ensures r.status == Healthy <==> r.errorRate < ErrorRateWarning
    {
      var rate := ErrorRate(errors, requests);
      MetricsReport(now - startTime, FormatUptime(now - startTime), requests, errors, rate, assessments,
                    StatusOf(rate))
    }
  }
}
