/** The probes of `monitor_sys.py` other than interface discovery: gateway
    selection, the ping command line, the latency ping, the public-network
    lookup, the two-tier speed test and the uptime arithmetic. Every outcome
    of a subprocess, a regex search or a download is an input. */
module Probes {
  import opened Common
  import opened Effects

  /** What `get_gateway` got from the platform's route command: the command
      failed, or the gateway addresses the regex captured, in output order. */
  datatype RouteProbe = RouteFailed | RouteMatches(matches: seq<string>)

  /** `get_gateway()`: on "Darwin" the first captured address (`re.search`),
      on "Windows" the last one (`re.findall(...)[-1]`), on any other system,
      after a failure or without a capture, None. */
  function GetGateway(os: string, probe: RouteProbe): (gateway: Option<string>)
    ensures gateway.Some? <==>
              (os == "Darwin" || os == "Windows") && probe.RouteMatches? && probe.matches != []
    ensures gateway.Some? ==> gateway.value in probe.matches
    ensures os == "Darwin" && gateway.Some? ==> gateway.value == probe.matches[0]
    ensures os == "Windows" && gateway.Some? ==> gateway.value == probe.matches[|probe.matches| - 1]
  {
    match probe
    case RouteFailed => None
    case RouteMatches(matches) =>
      if os == "Darwin" then
        if matches != [] then Some(matches[0]) else None
      else if os == "Windows" then
        if matches != [] then Some(matches[|matches| - 1]) else None
      else None
  }

  /** The count flag of the platform's ping utility. */
  function PingCountFlag(os: string): (flag: string)
    ensures flag == "-n" <==> Lower(os) == "windows"
    ensures flag == "-n" || flag == "-c"
  {
    if Lower(os) == "windows" then "-n" else "-c"
  }

  /** `['ping', param, '1', host]`, as built by `ping_host` and `get_true_ping`:
      one echo request, with Windows' `-n` or everybody else's `-c`. */
  function PingCommand(os: string, host: string): (cmd: seq<string>)
    ensures |cmd| == 4 && cmd[0] == "ping" && cmd[2] == "1" && cmd[3] == host
    ensures cmd[1] == (if Lower(os) == "windows" then "-n" else "-c")
  {
    ["ping", PingCountFlag(os), "1", host]
  }

  /** The host `get_true_ping` measures. */
  const LatencyHost := "8.8.8.8"

  /** What the latency regex captured after "time=" / "время=": a number
      `float()` accepts, or digits and dots it rejects (such as "1.2.3"). */
  datatype LatencyCapture = Number(ms: real) | Malformed

  /** The latency ping: the process failed (or its output did not decode),
      or it ran and the regex found a capture or none. */
  datatype PingRun = PingRunFailed | PingRunOutput(capture: Option<LatencyCapture>)

  /** The `'Ping'` field: a latency, "N/A" or "Error". */
  datatype PingValue = LatencyMs(ms: real) | NotAvailable | PingError

  /** `get_true_ping()`: the latency when one was parsed, "N/A" when the
      output held no time marker, "Error" when anything raised, including a
      capture `float()` cannot parse. */
  function TruePing(run: PingRun): (v: PingValue)
    ensures v.PingError? <==> run.PingRunFailed? || run.capture == Some(Malformed)
    ensures v.NotAvailable? <==> run == PingRunOutput(None)
    ensures v.LatencyMs? ==> run == PingRunOutput(Some(Number(v.ms)))
  {
    match run
    case PingRunFailed => PingError
    case PingRunOutput(None) => NotAvailable
    case PingRunOutput(Some(Number(ms))) => LatencyMs(ms)
    case PingRunOutput(Some(Malformed)) => PingError
  }

  /** The geolocation GET: it failed in any way, or it returned a JSON object
      whose string members are `fields`. */
  datatype GeoLookup = GeoFailed | GeoJson(fields: map<string, string>)

  datatype PublicData = PublicData(ip: string, city: string, state: string, country: string, isp: string)

  /** `data.get(key, 'Unknown')`. */
  function FieldOr(fields: map<string, string>, key: string): string
  {
    if key in fields then fields[key] else "Unknown"
  }

  /** `value` is what the JSON object holds under `key`, or "Unknown" when it holds nothing. */
  predicate Defaulted(fields: map<string, string>, key: string, value: string)
  {
    (key in fields && value == fields[key]) || (key !in fields && value == "Unknown")
  }

  /** `get_public_data()`: None when the lookup failed; otherwise each of the
      five fields is read from its own JSON key, defaulting to "Unknown". */
  function GetPublicData(geo: GeoLookup): (d: Option<PublicData>)
    ensures d.None? <==> geo.GeoFailed?
    ensures d.Some? ==>
              Defaulted(geo.fields, "query", d.value.ip) &&
              Defaulted(geo.fields, "city", d.value.city) &&
              Defaulted(geo.fields, "regionName", d.value.state) &&
              Defaulted(geo.fields, "country", d.value.country) &&
              Defaulted(geo.fields, "isp", d.value.isp)
  {
    match geo
    case GeoFailed => None
    case GeoJson(fields) =>
      Some(PublicData(FieldOr(fields, "query"), FieldOr(fields, "city"), FieldOr(fields, "regionName"),
                      FieldOr(fields, "country"), FieldOr(fields, "isp")))
  }

  /** The `'Location'` field: "City, State, Country". */
  function Location(d: PublicData): (loc: string)
    ensures |loc| == |d.city| + |d.state| + |d.country| + 4
    ensures loc[..|d.city|] == d.city
    ensures loc[|d.city|..|d.city| + 2] == ", "
    ensures loc[|d.city| + 2..|d.city| + 2 + |d.state|] == d.state
    ensures loc[|d.city| + 2 + |d.state|..|loc| - |d.country|] == ", "
    ensures loc[|loc| - |d.country|..] == d.country
  {
    d.city + ", " + d.state + ", " + d.country
  }

  /** One download of the speed test: it raised, or it read `bytes` bytes in
      `seconds` seconds of wall-clock time. */
  datatype Download = DownloadFailed | Downloaded(bytes: nat, seconds: real)

  /** The `'Speed_Mbps'` field: a rate, the "> 1000" sentinel, or "Error". */
  datatype SpeedValue = Mbps(rate: real) | Above1000 | SpeedError

  /** The dictionary `check_speed` returns. */
  datatype SpeedReport = SpeedReport(ping: PingValue, speed: SpeedValue)

  /** Primary downloads at or under this many seconds are too fast to measure. */
  const FastFloor: real := 0.1

  /** Megabits (2^20 bits) per second, before rounding to two decimals. */
  function Rate(bytes: nat, seconds: real): real
    requires seconds != 0.0
  {
    (bytes * 8) as real / (1024.0 * 1024.0) / seconds
  }

  /** What `check_speed` promises about its result, given the outcomes of the
      latency ping and of the two downloads:
      - the ping field is `get_true_ping()`'s value;
      - "Error" exactly when the primary raised and the backup raised too, or
        took zero seconds (a division by zero, which the same handler catches);
      - "> 1000" exactly when the primary succeeded within the 0.1 s floor;
      - otherwise the rate of the download that produced it. */
  predicate SpeedTestOutcome(r: SpeedReport, run: PingRun, primary: Download, backup: Download)
  {
    && r.ping == TruePing(run)
    && (r.speed.SpeedError? <==>
          primary.DownloadFailed? && (backup.DownloadFailed? || backup.seconds == 0.0))
    && (r.speed.Above1000? <==> primary.Downloaded? && primary.seconds <= FastFloor)
    && (r.speed.Mbps? && primary.Downloaded? ==> r.speed.rate == Rate(primary.bytes, primary.seconds))
    && (r.speed.Mbps? && primary.DownloadFailed? ==>
          backup.Downloaded? && backup.seconds != 0.0 && r.speed.rate == Rate(backup.bytes, backup.seconds))
  }

  /** The calls `check_speed` makes: the latency ping, the primary download,
      and the backup download only after the primary raised. */
  function SpeedTestCalls(os: string, primary: Download): (calls: seq<Call>)
    ensures BackupDownload in calls <==> primary.DownloadFailed?
    ensures |calls| == if primary.DownloadFailed? then 3 else 2
    ensures calls[0] == LatencyPing(PingCommand(os, LatencyHost)) && calls[1] == PrimaryDownload
    ensures primary.DownloadFailed? ==> calls[2] == BackupDownload
    ensures forall i :: 0 <= i < |calls| ==>
              calls[i].LatencyPing? || calls[i] == PrimaryDownload || calls[i] == BackupDownload
  {
    [LatencyPing(PingCommand(os, LatencyHost)), PrimaryDownload] +
      (if primary.DownloadFailed? then [BackupDownload] else [])
  }

  /** `check_speed()`: fills the `result` dictionary field by field; the backup
      endpoint is tried once, only when the primary attempt raised. */
  method CheckSpeed(os: string, run: PingRun, primary: Download, backup: Download)
    returns (r: SpeedReport, calls: seq<Call>)
    ensures SpeedTestOutcome(r, run, primary, backup)
    ensures calls == SpeedTestCalls(os, primary)
  {
    var ping: PingValue := LatencyMs(0.0);
    var speed: SpeedValue := Mbps(0.0);
    // 1. The latency ping.
    calls := [LatencyPing(PingCommand(os, LatencyHost))];
    ping := TruePing(run);
    // 2. The primary download.
    calls := calls + [PrimaryDownload];
    match primary {
      case Downloaded(bytes, seconds) =>
        if seconds > FastFloor {
          speed := Mbps(Rate(bytes, seconds));
        } else {
          speed := Above1000;
        }
      case DownloadFailed =>
        // 3. The backup download; a zero duration raises inside the same handler.
        calls := calls + [BackupDownload];
        match backup {
          case Downloaded(bytes, seconds) =>
            if seconds != 0.0 {
              speed := Mbps(Rate(bytes, seconds));
            } else {
              speed := SpeedError;
            }
          case DownloadFailed =>
            speed := SpeedError;
        }
    }
    r := SpeedReport(ping, speed);
  }

  /** The `'Uptime'` record: whole hours and whole days. */
  datatype Uptime = Uptime(hours: int, days: int)

  /** `Hours = uptimesec // 3600`, `Days = (uptimesec // 3600) // 24`, for a
      whole number of seconds. */
  function UptimeOf(seconds: nat): (u: Uptime)
    ensures 0 <= u.hours * 3600 <= seconds < (u.hours + 1) * 3600
    ensures 0 <= u.days * 24 <= u.hours < (u.days + 1) * 24
  {
    Uptime(seconds / 3600, seconds / 3600 / 24)
  }

  /** The two-step division gives whole days: `Days == uptimesec // 86400`. */
  lemma UptimeDaysAreWholeDays(seconds: nat)
    ensures UptimeOf(seconds).days == seconds / 86400
  {
    var u := UptimeOf(seconds);
    var d := u.days;
    assert d * 86400 <= seconds by {
      assert d * 86400 == (d * 24) * 3600;
      assert (d * 24) * 3600 <= u.hours * 3600;
    }
    assert seconds < (d + 1) * 86400 by {
      assert u.hours + 1 <= (d + 1) * 24;
      assert (u.hours + 1) * 3600 <= ((d + 1) * 24) * 3600;
    }
    WholeDaysByBounds(seconds, d);
  }

  lemma WholeDaysByBounds(seconds: nat, days: nat)
    requires days * 86400 <= seconds < (days + 1) * 86400
    ensures seconds / 86400 == days
  {
  }
}
