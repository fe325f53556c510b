/** The three network tiers of `quickcheck` seen end to end, and the
    offline dispatch of `run_process`. Each is a client of the contracts of
    `Quickcheck` and `RunProcess` and uses nothing but those contracts. */
module Scenarios {
  import opened Common
  import opened Effects
  import opened Interfaces
  import opened Probes
  import opened Monitor
  import opened Sender

  /** With every interface down the offline search finds nothing. */
  lemma AllDownNoCandidate(stats: seq<InterfaceStat>, table: seq<AddrEntry>)
    requires forall k :: 0 <= k < |stats| ==> !stats[k].isUp
    ensures FirstCandidate(stats, table).None?
  {
    FirstCandidateIsFirstSurvivor(stats, table);
  }

  /** Online with a working lookup and a measurable primary download: no
      gateway probing, the latency ping and the primary download only, and
      the speed is the primary's rate. */
  method OnlineTier(w: World) returns (r: Report, calls: seq<Call>)
    requires w.connect.Connected? && w.geo.GeoJson?
    requires w.primary.Downloaded? && w.primary.seconds > FastFloor
    ensures r.network.status && r.network.ip == w.connect.localIp
    ensures r.network.gateway == "No Need" && r.network.gatewayStatus == NoNeed
    ensures r.network.speed ==
              Some(SpeedReport(TruePing(w.latencyPing), Mbps(Rate(w.primary.bytes, w.primary.seconds))))
    ensures calls == [PublicLookup, LatencyPing(PingCommand(w.os, LatencyHost)), PrimaryDownload]
  {
    r, calls := Quickcheck(w);
    var s := r.network.speed.value;
    assert !s.speed.SpeedError? && !s.speed.Above1000?;
  }

  /** Local-only on macOS: no route, a usable address on a physical adapter,
      and a route table whose first gateway answers the ping. */
  method LocalOnlyTierOnDarwin(w: World, gw: string, rest: seq<string>) returns (r: Report, calls: seq<Call>)
    requires w.connect.ConnectFailed? && w.os == "Darwin"
    requires FirstCandidate(w.stats, w.addrs).Some? && DhcpValid(FirstCandidate(w.stats, w.addrs).value.ip)
    requires w.route == RouteMatches([gw] + rest) && gw != "" && w.gatewayPingExit == 0
    ensures !r.network.status && r.network.dhcp
    ensures r.network.gateway == gw && r.network.gatewayStatus == Reached(true)
    ensures r.network.publicIp == "Unknown" && r.network.speed.None?
    ensures calls == [GatewayLookup, GatewayPing(["ping", "-c", "1", gw])]
  {
    r, calls := Quickcheck(w);
    assert Lower(w.os) != "windows" by {
      assert |Lower(w.os)| == 6;
    }
    var cmd := PingCommand(w.os, gw);
    assert cmd == ["ping", "-c", "1", gw];
  }

  /** Fully offline: no route and every interface down. The IP is "Offline",
      DHCP is False, and since the gateway branch needs DHCP True the gateway
      fields are 'No Need'; no probe runs at all. */
  method FullyOfflineTier(w: World) returns (r: Report, calls: seq<Call>)
    requires w.connect.ConnectFailed?
    requires forall k :: 0 <= k < |w.stats| ==> !w.stats[k].isUp
    ensures r.network.ip == "Offline" && r.network.iface == "Unknown" && !r.network.dhcp
    ensures r.network.gateway == "No Need" && r.network.gatewayStatus == NoNeed
    ensures r.network.publicIp == "Unknown" && r.network.speed.None?
    ensures calls == []
  {
    AllDownNoCandidate(w.stats, w.addrs);
    r, calls := Quickcheck(w);
  }

  /** An offline run at 14:05:09 whose file write succeeds reports the file
      `System_Report_14-05-09.txt`. */
  method OfflineRunExample(cfg: Config, w: World, serialize: Report -> string, home: string, gemini: GeminiOutcome)
    returns (result: Result<string>)
    requires w.connect.ConnectFailed? && w.time == "14:05:09"
    ensures result == Ok(OfflineBanner + "System_Report_14-05-09.txt")
  {
    OfflineFileNameExample(w.time);
    assert '/' !in w.time;
    var report, probes, calls;
    result, report, probes, calls := RunProcess(cfg, w, serialize, home, gemini, true);
  }

  /** Two runs on the same probe outcomes build the same report and make the
      same calls: every field of the report is determined by the outcomes. */
  method RepeatedRunsAgree(w: World) returns (r1: Report, r2: Report, calls1: seq<Call>, calls2: seq<Call>)
    ensures r1 == r2 && calls1 == calls2
  {
    r1, calls1 := Quickcheck(w);
    r2, calls2 := Quickcheck(w);
    if r1.network.status && w.geo.GeoJson? {
      var s1, s2 := r1.network.speed.value, r2.network.speed.value;
      assert s1.ping == s2.ping;
      assert s1.speed == s2.speed;
    }
  }
}
