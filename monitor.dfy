/** `quickcheck()`: assembles the system report and classifies the network
    into one of three tiers — online, local-only (an address but no route),
    fully offline — deciding which further probes run in each. */
module Monitor {
  import opened Common
  import opened Effects
  import opened Interfaces
  import opened Probes

  /** The UDP connect towards 8.8.8.8:80: the local address the socket was
      bound to, or an `OSError`. */
  datatype ConnectOutcome = Connected(localIp: string) | ConnectFailed

  /** Everything one run reads from the host and the network, as values. */
  datatype World = World(
    time: string,              // `datetime.now().strftime("%H:%M:%S")`
    hostname: string,
    os: string,                // `platform.system()`
    uptimeSeconds: nat,        // whole seconds since boot
    diskPercent: nat,          // `int(psutil.disk_usage(path).percent)`
    connect: ConnectOutcome,
    stats: seq<InterfaceStat>, // `psutil.net_if_stats()`
    addrs: seq<AddrEntry>,     // `psutil.net_if_addrs()`
    route: RouteProbe,         // what `get_gateway` reads
    gatewayPingExit: int,      // exit status of `ping_host(gateway)`
    geo: GeoLookup,            // what `get_public_data` reads
    latencyPing: PingRun,      // what `get_true_ping` reads
    primary: Download,         // the primary speed-test download
    backup: Download           // the backup speed-test download
  )

  /** `Gateway_Status`: a ping verdict, or the 'No Need' sentinel. */
  datatype GatewayStatus = Reached(reachable: bool) | NoNeed

  /** `report['Network']`. */
  datatype Network = Network(
    status: bool,
    ip: string,
    iface: string,
    dhcp: bool,
    gateway: string,
    gatewayStatus: GatewayStatus,
    publicIp: string,
    location: string,
    isp: string,
    speed: Option<SpeedReport>   // the `'Speed'` key, present only when set
  )

  /** The report; disk totals and RAM are floating-point and not modelled. */
  datatype Report = Report(
    time: string,
    hostname: string,
    os: string,
    uptime: Uptime,
    diskPercent: nat,
    network: Network
  )

  /** The `'DHCP'` flag: False for "Offline", "None" and link-local
      ("169.254" prefix) addresses, True for every other address. */
  function DhcpValid(ip: string): (valid: bool)
    ensures !valid <==> ip == "Offline" || ip == "None" || StartsWith(ip, "169.254")
  {
    if ip !in ["Offline", "None"] then
      if StartsWith(ip, "169.254") then false else true
    else false
  }

  /** The gateway tier runs exactly when there is no route but a usable address. */
  predicate LocalOnlyTier(n: Network)
  {
    !n.status && n.dhcp
  }

  /** `if gateway:` — None and the empty string are both falsy. */
  predicate Truthy(gateway: Option<string>)
  {
    gateway.Some? && gateway.value != ""
  }

  /** The `try`/`except OSError` block: Status, IP and Interface, from the
      connect when it succeeds, from the offline search when it fails. */
  method ResolveAddress(w: World) returns (status: bool, ip: string, iface: string)
    ensures status <==> w.connect.Connected?
    ensures w.connect.Connected? ==>
              ip == w.connect.localIp && iface == InterfaceNameFor(w.addrs, w.connect.localIp)
    ensures w.connect.ConnectFailed? ==>
              match FirstCandidate(w.stats, w.addrs)
              case Some(c) => ip == c.ip && iface == c.iface
              case None => ip == "Offline" && iface == "Unknown"
  {
    match w.connect {
      case Connected(localIp) =>
        status := true;
        ip := localIp;
        iface := FindInterfaceByIp(w.addrs, localIp);
      case ConnectFailed =>
        status := false;
        var offline := FindRealInterfaceOffline(w.stats, w.addrs);
        if offline.Some? {
          ip, iface := offline.value.ip, offline.value.iface;
        } else {
          ip, iface := "Offline", "Unknown";
        }
    }
  }

  /** The gateway block of the local-only tier: the route lookup, then a ping
      of the gateway when one was found. */
  method ProbeGateway(os: string, route: RouteProbe, pingExit: int)
    returns (gateway: string, gatewayStatus: GatewayStatus, calls: seq<Call>)
    ensures var gw := GetGateway(os, route);
            if Truthy(gw) then
              gateway == gw.value && gatewayStatus == Reached(pingExit == 0) &&
              calls == [GatewayLookup, GatewayPing(PingCommand(os, gw.value))]
            else
              gateway == "Unknown" && gatewayStatus == Reached(false) && calls == [GatewayLookup]
    ensures GatewayLookup in calls && PublicLookup !in calls
    ensures forall i :: 0 <= i < |calls| ==> !calls[i].IsDispatch()
  {
    calls := [GatewayLookup];
    var gw := GetGateway(os, route);
    if Truthy(gw) {
      gateway := gw.value;
      calls := calls + [GatewayPing(PingCommand(os, gw.value))];
      gatewayStatus := Reached(pingExit == 0);
    } else {
      gateway := "Unknown";
      gatewayStatus := Reached(false);
    }
  }

  /** The enrichment block of the online tier: the public lookup, and the
      speed test only after the lookup succeeded. */
  method Enrich(w: World)
    returns (publicIp: string, location: string, isp: string, speed: Option<SpeedReport>, calls: seq<Call>)
    ensures w.geo.GeoFailed? ==>
              publicIp == "API Error" && location == "Unknown" && isp == "Unknown" &&
              speed.None? && calls == [PublicLookup]
    ensures w.geo.GeoJson? ==>
              var d := GetPublicData(w.geo).value;
              publicIp == d.ip && location == Location(d) && isp == d.isp &&
              speed.Some? && SpeedTestOutcome(speed.value, w.latencyPing, w.primary, w.backup) &&
              calls == [PublicLookup] + SpeedTestCalls(w.os, w.primary)
    ensures PublicLookup in calls && GatewayLookup !in calls
    ensures forall i :: 0 <= i < |calls| ==> !calls[i].IsDispatch()
  {
    calls := [PublicLookup];
    var pub := GetPublicData(w.geo);
    if pub.Some? {
      publicIp := pub.value.ip;
      location := Location(pub.value);
      isp := pub.value.isp;
      var measured, speedCalls := CheckSpeed(w.os, w.latencyPing, w.primary, w.backup);
      speed := Some(measured);
      calls := calls + speedCalls;
    } else {
      publicIp, location, isp := "API Error", "Unknown", "Unknown";
      speed := None;
    }
  }

  /** What `quickcheck()` promises about the report `r` it builds from the
      probe outcomes `w` and about the probes `calls` it runs, in order. */
  predicate QuickcheckOutcome(w: World, r: Report, calls: seq<Call>)
  {
    // The snapshot fields.
    (r.time == w.time && r.hostname == w.hostname && r.os == w.os)
    && (r.uptime == UptimeOf(w.uptimeSeconds) && r.diskPercent == w.diskPercent)
    // Status, IP and Interface.
    && (r.network.status <==> w.connect.Connected?)
    && (w.connect.Connected? ==>
         r.network.ip == w.connect.localIp &&
         r.network.iface == InterfaceNameFor(w.addrs, w.connect.localIp))
    && (w.connect.ConnectFailed? ==>
         match FirstCandidate(w.stats, w.addrs)
         case Some(c) => r.network.ip == c.ip && r.network.iface == c.iface
         case None => r.network.ip == "Offline" && r.network.iface == "Unknown")
    // DHCP.
    && (r.network.dhcp == DhcpValid(r.network.ip))
    // Gateway tier: the lookup runs only without a route but with a usable address.
    && ((GatewayLookup in calls) <==> LocalOnlyTier(r.network))
    && (!LocalOnlyTier(r.network) ==>
         r.network.gateway == "No Need" && r.network.gatewayStatus == NoNeed)
    && (LocalOnlyTier(r.network) ==>
         var gw := GetGateway(w.os, w.route);
         if Truthy(gw) then
           r.network.gateway == gw.value &&
           r.network.gatewayStatus == Reached(w.gatewayPingExit == 0) &&
           calls == [GatewayLookup, GatewayPing(PingCommand(w.os, gw.value))]
         else
           r.network.gateway == "Unknown" && r.network.gatewayStatus == Reached(false) &&
           calls == [GatewayLookup])
    // Enrichment tier: public lookup when online, speed test only after a successful lookup.
    && ((PublicLookup in calls) <==> r.network.status)
    && (r.network.speed.Some? <==> r.network.status && w.geo.GeoJson?)
    && (!r.network.status ==>
         r.network.publicIp == "Unknown" && r.network.location == "Unknown" &&
         r.network.isp == "Unknown")
    && (r.network.status && w.geo.GeoFailed? ==>
         r.network.publicIp == "API Error" && r.network.location == "Unknown" &&
         r.network.isp == "Unknown" && calls == [PublicLookup])
    && (r.network.status && w.geo.GeoJson? ==>
         var d := GetPublicData(w.geo).value;
         r.network.publicIp == d.ip && r.network.location == Location(d) && r.network.isp == d.isp &&
         SpeedTestOutcome(r.network.speed.value, w.latencyPing, w.primary, w.backup) &&
         calls == [PublicLookup] + SpeedTestCalls(w.os, w.primary))
    // The fully offline tier runs no probe at all.
    && (!r.network.status && !r.network.dhcp ==> calls == [])
    // Only probes, never a dispatch call.
    && (forall i :: 0 <= i < |calls| ==> !calls[i].IsDispatch())
  }

  /** `quickcheck()`. The trace `calls` records every probe it runs. */
  method Quickcheck(w: World) returns (r: Report, calls: seq<Call>)
    ensures QuickcheckOutcome(w, r, calls)
  {
    var uptime := UptimeOf(w.uptimeSeconds);

    // Status, IP and Interface.
    var status, ip, iface := ResolveAddress(w);

    // DHCP.
    var dhcp := DhcpValid(ip);

    // Gateway.
    var gateway: string;
    var gatewayStatus: GatewayStatus;
    var gatewayCalls: seq<Call> := [];
    if !status && dhcp {
      gateway, gatewayStatus, gatewayCalls := ProbeGateway(w.os, w.route, w.gatewayPingExit);
    } else {
      gateway := "No Need";
      gatewayStatus := NoNeed;
    }

    // Public data and speed.
    var publicIp: string;
    var location: string;
    var isp: string;
    var speed: Option<SpeedReport>;
    var enrichCalls: seq<Call> := [];
    if status {
      publicIp, location, isp, speed, enrichCalls := Enrich(w);
    } else {
      publicIp, location, isp := "Unknown", "Unknown", "Unknown";
      speed := None;
    }

    calls := gatewayCalls + enrichCalls;
    // At most one of the two blocks probes.
    if status {
      assert gatewayCalls == [] && calls == enrichCalls;
    } else {
      assert enrichCalls == [] && calls == gatewayCalls;
    }
    r := Report(w.time, w.hostname, w.os, uptime, w.diskPercent,
                Network(status, ip, iface, dhcp, gateway, gatewayStatus, publicIp, location, isp, speed));
  }
}
