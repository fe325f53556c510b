# HealthCheck network diagnostics, modelled in Dafny

HealthCheck takes a snapshot of a host. `monitor_sys.quickcheck()` records:

- the clock, the hostname and the OS;
- the uptime and the disk usage;
- a network section, after classifying the network into one of three tiers:
  - **online**: a UDP connect towards 8.8.8.8 succeeds. The public IP/location/ISP lookup runs, and after it succeeds, the speed test runs.
  - **local-only**: no route, but a usable (non-link-local) address on a physical adapter. The default gateway is looked up and pinged.
  - **fully offline**: no route and no usable address. No further probe runs.

`network_sender.run_process()` then acts on the report:

- **online**: it asks the text-generation service for a summary, sends that reply to the chat bot, and returns an ONLINE status text.
- **offline**: it writes a five-line text report to `~/Desktop/System_Report_<time>.txt` and returns an OFFLINE status text naming the file.

The model keeps the decision logic and makes every outcome of the outside world an input:

- the connect;
- the interface tables of `psutil`;
- the route command's captured gateways and the ping's exit status;
- the geolocation JSON;
- the latency ping's capture;
- the two downloads;
- the service's reply.

The datatype `Monitor.World` gathers these inputs. Each method returns, besides its result, the trace of the calls it makes (`Effects.Call`). Its contract therefore also states which probes run in each tier and how often.

Modules:

- `Common` (`common.dfy`): `Option`/`Result`, string helpers (lowercasing, substring, `posixpath.join` and basename, decimal digits) and `Collect`, the list a loop builds by appending what each element yields.
- `Effects` (`effects.dfy`): the probe and dispatch calls that a run can make.
- `Interfaces` (`interfaces.dfy`):
  - `find_real_interface_offline`: a loop proved equal to the first-survivor specification `FirstCandidate`;
  - the online interface lookup inside `quickcheck`.
- `Probes` (`probes.dfy`):
  - `get_gateway`;
  - the `ping` command line;
  - `get_true_ping`;
  - `get_public_data`;
  - `check_speed`, with its backup fallback;
  - the uptime arithmetic.
- `Monitor` (`monitor.dfy`): `quickcheck`, in the stages the source runs (address resolution, DHCP validity, the gateway block, the enrichment block).
- `Sender` (`sender.dfy`):
  - the import-time configuration guard;
  - `ask_gemini`;
  - `save_offline`, with its file name and text;
  - `run_process`.
- `Scenarios` (`scenarios.dfy`): the three tiers end to end, and the determinism of a run. These use only the contracts of `Quickcheck` and `RunProcess`.

### Behaviour the code determines and the model keeps

- **Fully offline host.** The gateway branch needs Status False and DHCP True (`monitor_sys.py:299-312`), so a fully offline host gets 'No Need'/'No Need' and no gateway lookup runs (`Monitor.Quickcheck`, `Scenarios.FullyOfflineTier`).
- **Online interface lookup.** It reports the first interface holding the local address whose name is not "Unknown". A matching interface literally named "Unknown" does not end the search, because the outer loop decides whether a match was found by testing the recorded name against "Unknown".
- **Backup download lasting zero seconds.** The division raises inside the handler, so the speed is "Error".
- **Latency capture that `float()` rejects** (such as "1.2.3"). The bare `except` turns it into "Error".
- **`if gateway:`.** An empty captured gateway counts as no gateway.

## Model

| member | source | states |
|---|---|---|
| Common.Lower | monitor_sys.py:67 | `name.lower()`: same length; each ASCII capital becomes its small letter, the Kelvin sign U+212A becomes 'k', every other character is kept |
| Common.ReplaceChar | network_sender.py:92 | `str.replace` of one character: same length; exactly the matching characters are replaced |
| Common.NatToString | network_sender.py:100 | the disk percentage's decimal rendering is non-empty and all digits |
| Common.NatToStringDenotes | network_sender.py:100 | those digits denote the number, with no leading zero except for 0 itself |
| Common.Basename | network_sender.py:124 | `os.path.basename` is what follows the last separator: a suffix of the path holding no separator, preceded by a separator or by nothing |
| Common.PathJoin | network_sender.py:90-93 | `posixpath.join(a, b)`: an absolute `b` replaces `a`; otherwise `a`, then one separator unless `a` is empty or already ends in one, then `b` |
| Common.BasenameOfJoin | network_sender.py:93 | `os.path.join` of any directory and a separator-free file name has that file name as its basename |
| Interfaces.AddressesOf | monitor_sys.py:89-90 | `name in addrs`: None exactly when no entry has the name; otherwise the addresses of an entry with that name |
| Interfaces.FirstIPv4 | monitor_sys.py:90-98 | the scan stops at the first AF_INET address: None iff there is no IPv4 address; otherwise it is an IPv4 entry preceded by no other IPv4 entry |
| Interfaces.FirstCandidateIsFirstSurvivor | monitor_sys.py:64-101 | `candidates[0] if candidates else None` is None iff no interface passes all four filters; otherwise it is the candidate of the first interface that does |
| Interfaces.ReturnedInterfaceIsClean | monitor_sys.py:66-98 | a returned interface is up, is not `lo`/`lo0`, contains no stop word, and its first IPv4 address is the returned one and lies outside 127.* |
| Interfaces.OnlyFirstIPv4Examined | monitor_sys.py:90-98 | when the first IPv4 address is 127.*, the interface contributes nothing, even if a later IPv4 address is usable (the unconditional `break`) |
| Interfaces.FirstIPv4Skips | monitor_sys.py:90-98 | non-IPv4 addresses before the first IPv4 one are skipped |
| Interfaces.TunnelAndDockerNeverReturned | monitor_sys.py:57-85 | interfaces named `utun7` or `docker0` are never returned |
| Interfaces.TunnelAndDockerAreJunk | monitor_sys.py:57-62 | `utun7` and `docker0` contain stop words |
| Interfaces.EthernetIsNotJunk | monitor_sys.py:57-85 | `ethernet` contains none of the 19 stop words |
| Interfaces.PassingInterfaceContributes | monitor_sys.py:66-97 | an interface passing all four filters contributes its first IPv4 address under its original-case name |
| Interfaces.EthernetReturned | monitor_sys.py:47-101 | a single up adapter `Ethernet` with 10.0.0.5 is returned as `{IP: 10.0.0.5, Interface: Ethernet}` |
| Interfaces.HasStopWord | monitor_sys.py:79-85 | the stop-word loop with `break` sets `is_junk` exactly when some stop word is a substring of the lowered name |
| Interfaces.FindRealInterfaceOffline | monitor_sys.py:47-101 | the filtering loop (with `continue`s and the inner `break`) returns exactly the first-survivor specification |
| Interfaces.InterfaceNameIsFirstOwner | monitor_sys.py:268-279 | the online interface is "Unknown" iff no interface not named "Unknown" holds the local IP; otherwise it is the first such interface |
| Interfaces.FindInterfaceByIp | monitor_sys.py:268-279 | the nested search loop with both `break`s computes that online interface name |
| Probes.GetGateway | monitor_sys.py:13-45 | a gateway exists iff the OS is Darwin or Windows and the route output held a match; it is the first match on Darwin and the last on Windows |
| Probes.PingCountFlag | monitor_sys.py:110 | the count flag is `-n` iff the lowered OS name is `windows`, otherwise `-c` |
| Probes.PingCommand | monitor_sys.py:104-113 | the ping argv is `['ping', flag, '1', host]` with the platform's flag |
| Probes.TruePing | monitor_sys.py:141-164 | "Error" iff the ping raised or the capture does not parse; "N/A" iff there was no time marker; otherwise the parsed milliseconds |
| Probes.GetPublicData | monitor_sys.py:123-138 | None iff the lookup failed; otherwise each of the five fields is read from its own JSON key (`query`, `city`, `regionName`, `country`, `isp`), defaulting to "Unknown" |
| Probes.Location | monitor_sys.py:318 | "City, State, Country": the city, ", ", the state, ", " and the country, at those positions and nothing else |
| Probes.SpeedTestCalls | monitor_sys.py:175-220 | the latency ping first, then the primary download, then the backup download once iff the primary raised; nothing else |
| Probes.CheckSpeed | monitor_sys.py:167-225 | ping is `get_true_ping()`'s value; speed is "Error" iff the primary raised and the backup raised or took zero seconds; "> 1000" iff the primary took ≤ 0.1 s; otherwise the producing download's Mbit/s |
| Probes.UptimeOf | monitor_sys.py:238-241 | hours and days are the whole hours of uptime and the whole days of those hours |
| Probes.UptimeDaysAreWholeDays | monitor_sys.py:240-241 | the two-step division gives whole days: `Days == seconds // 86400` |
| Monitor.DhcpValid | monitor_sys.py:290-297 | DHCP is False iff the IP is "Offline", "None" or starts with 169.254 |
| Monitor.ResolveAddress | monitor_sys.py:262-288 | Status iff the connect succeeded; online, the bound IP and the interface holding it; offline, the offline search's candidate or "Offline"/"Unknown" |
| Monitor.ProbeGateway | monitor_sys.py:299-309 | the route lookup always runs; with a truthy gateway it is reported and pinged, the verdict being True iff the ping exits 0; otherwise "Unknown"/False and no ping |
| Monitor.Enrich | monitor_sys.py:314-326 | a failed lookup gives "API Error"/"Unknown"/"Unknown" and no speed test; a successful one fills IP, "City, State, Country" and ISP and runs the speed test once |
| Monitor.Quickcheck | monitor_sys.py:227-332 | `QuickcheckOutcome`: snapshot fields; Status iff the connect succeeded; IP/Interface by the online lookup or the offline search; the gateway lookup runs iff Status is False and DHCP is True, else 'No Need'/'No Need'; the public lookup runs iff online, the speed test only after it succeeds; exact probe calls per tier; no dispatch |
| Sender.LoadConfig | network_sender.py:14-24 | importing succeeds iff all three variables are set and non-empty; otherwise a ValueError with the fixed message |
| Sender.GeminiPrompt | network_sender.py:36-40 | the prompt is the fixed preamble followed by the serialized report |
| Sender.AskGemini | network_sender.py:27-54 | the reply text, or the exception message behind the "Gemini Error (New SDK): " prefix; never raises |
| Sender.FileTimestamp | network_sender.py:92 | the time with every ':' replaced by '-': same length, each ':' becomes '-', every other character is kept |
| Sender.OfflineFileNameExample | network_sender.py:92-93 | a report taken at "14:05:09" has timestamp "14-05-09" and is saved as `System_Report_14-05-09.txt` |
| Sender.OfflineFileName | network_sender.py:93 | `System_Report_<timestamp>.txt` contains no ':' |
| Sender.OfflinePathAtRoot | network_sender.py:90-93 | with the home directory "/", the report path is `/Desktop/System_Report_<timestamp>.txt`, with no doubled separator |
| Sender.OfflineTextSpelledOut | network_sender.py:95-101 | the offline text is exactly the five f-string lines, each followed by a newline |
| Sender.OfflineTextHasFiveLines | network_sender.py:95-101 | the offline text is five newline-terminated lines, none holding a newline itself (when the time and IP hold none), the first "OFFLINE REPORT" and the fourth "Internet: UNAVAILABLE" |
| Sender.SaveOffline | network_sender.py:86-104 | writes the offline text to `os.path.join(os.path.join(home, 'Desktop'), 'System_Report_<timestamp>.txt')`, exactly one write, and returns that path, or the write's `OSError` |
| Sender.OfflineStatusNamesFile | network_sender.py:90-93 | the basename of `~/Desktop/System_Report_<timestamp>.txt` is the report file's name |
| Sender.RunProcess | network_sender.py:107-124 | the report and the probe calls are those `quickcheck()` promises (`QuickcheckOutcome`), and the calls are those probes followed by: online, the AI request with the prompt and the chat message with its reply, and the ONLINE banner plus reply; offline, one file write of the offline text to the report path, and the OFFLINE banner plus its basename (or the write's error) |
| Scenarios.AllDownNoCandidate | monitor_sys.py:66-101 | with every interface down the offline search returns None |
| Scenarios.OnlineTier | monitor_sys.py:299-322 | online with a lookup and a measurable primary: gateway 'No Need', calls are the public lookup, latency ping and primary download, speed is the primary's rate |
| Scenarios.LocalOnlyTierOnDarwin | monitor_sys.py:299-309 | local-only on macOS with a reachable first route gateway: Gateway is that address, Gateway_Status True, calls are the route lookup and `ping -c 1 <gateway>` |
| Scenarios.FullyOfflineTier | monitor_sys.py:281-312 | all interfaces down: IP "Offline", Interface "Unknown", DHCP False, gateway 'No Need'/'No Need', no probe call |
| Scenarios.OfflineRunExample | network_sender.py:121-124 | an offline run at 14:05:09 whose write succeeds reports `System_Report_14-05-09.txt` |
| Scenarios.RepeatedRunsAgree | monitor_sys.py:227-332 | two runs on the same outcomes give the same report and the same calls |

## Left out

- `main.py`, `main_gui.py` and `asa.py` (the window, the button, the worker thread) are not part of this model.
- Disk totals, used space and RAM are floating-point gigabyte figures and are left out. The disk-path choice (`C://`, `/System/Volumes/Data`) only selects what to measure and is left out too. The report keeps only the disk percentage, as an input.
- Probes.CheckSpeed: the rate is not rounded to two decimals, because `round` on floats is not modelled. The rate is the real-number quotient `bytes·8 / 2^20 / seconds`.
- Probes.CheckSpeed: the durations come from a wall clock. They are inputs, as are the download sizes. The URLs, headers, TLS settings, timeouts and `print` diagnostics are left out.
- Probes.UptimeOf: the uptime is taken as whole seconds. `floor(x) // 3600` equals `x // 3600` for a non-negative float, so only the unused fractional second is lost.
- Common.Lower: only ASCII capitals and the Kelvin sign (U+212A, which Python lowers to 'k') are folded. Other non-ASCII case mappings of `str.lower` are left out, among them those that change the length, such as U+0130 becoming two characters. Such a name would be matched against the stop words differently.
- Interfaces.FindRealInterfaceOffline: `psutil`'s two dictionaries are two sequences joined by interface name. The first entry with a name is used, because dictionary keys are unique.
- Monitor.Quickcheck: the ping of the gateway is modelled by its exit status: True iff the status is 0. Exceptions other than `CalledProcessError` (no `ping` binary, say) would propagate out of `ping_host` and are left out.
- Probes.GetGateway: the regular expressions over the route command's output are not modelled. Their captures, in output order, are the input.
- Probes.TruePing: the regular expression and the output decoding are not modelled. A decoding failure is a failed run, and the capture is the input.
- Probes.GetPublicData: the HTTP request and the JSON decoding are not modelled. Any failure of either is `GeoFailed`. The JSON members are taken as strings.
- Sender.RunProcess: the JSON serialization of the report is the `serialize` parameter.
- Sender.RunProcess: `send_to_telegram` is one `TelegramSend(chatId, reply)` call. The model leaves out several of its details:
  - its two HTTP posts;
  - the "Report:" heading of the message;
  - the temporary JSON file;
  - the True/False it returns, which `run_process` ignores.
- Sender.RunProcess: the AI request is recorded even when the client construction itself raised. Either way the reply is `AskGemini` of the outcome. The model name sent to the service is left out.
- Sender.RunProcess: a failed file write is `Err("OSError")`. The exception would propagate to the caller.
- Sender.OfflinePath: `os.path.join` is modelled as `posixpath.join`. Windows' `ntpath.join` (the `\` separator, drive letters) is not modelled. The home directory is an input.
- Sender.LoadConfig: `load_dotenv` and the process environment are a map given as input. `RunProcess` takes the loaded configuration.
