/** `network_sender.py`: the configuration guard run at import time, the AI
    summary request, the offline report file, and `run_process`, which sends
    an online report to the AI service and the chat, or saves an offline one. */
module Sender {
  import opened Common
  import opened Effects
  import opened Monitor

  /** The three secrets read from the environment. */
  datatype Config = Config(telegramToken: string, telegramChatId: string, geminiApiKey: string)

  const RequiredKeys: seq<string> := ["TELEGRAM_TOKEN", "TELEGRAM_CHAT_ID", "GEMINI_API_KEY"]

  const MissingConfigMessage: string :=
    "Missing required environment variables! " +
    "Please ensure your .env file contains: " +
    "TELEGRAM_TOKEN, TELEGRAM_CHAT_ID, GEMINI_API_KEY"

  /** `os.getenv(key)`. */
  function Getenv(env: map<string, string>, key: string): Option<string>
  {
    if key in env then Some(env[key]) else None
  }

  /** Python truthiness of an optional string: set and not empty. */
  predicate Set(v: Option<string>)
  {
    v.Some? && v.value != ""
  }

  /** The module-level guard: importing `network_sender` raises `ValueError`
      with the fixed message unless all three variables are set and non-empty. */
  function LoadConfig(env: map<string, string>): (r: Result<Config>)
    ensures r.Ok? <==> forall k :: k in RequiredKeys ==> k in env && env[k] != ""
    ensures r.Err? ==> r.error == MissingConfigMessage
    ensures r.Ok? ==>
              r.value == Config(env["TELEGRAM_TOKEN"], env["TELEGRAM_CHAT_ID"], env["GEMINI_API_KEY"])
  {
    var token, chat, key :=
      Getenv(env, "TELEGRAM_TOKEN"), Getenv(env, "TELEGRAM_CHAT_ID"), Getenv(env, "GEMINI_API_KEY");
    if !(Set(token) && Set(chat) && Set(key)) then Err(MissingConfigMessage)
    else Ok(Config(token.value, chat.value, key.value))
  }

  const GeminiPreamble: string :=
    "You are a system administrator. Analyze this JSON system health report. " +
    "Briefly identify any issues (network, disk, RAM) and provide advice in English. " +
    "Data: "

  /** The prompt: the fixed preamble followed by the serialized report. */
  function GeminiPrompt(serialized: string): (prompt: string)
    ensures StartsWith(prompt, GeminiPreamble)
    ensures prompt[|GeminiPreamble|..] == serialized
  {
    GeminiPreamble + serialized
  }

  /** What the text-generation service did with the request: replied with
      text, or raised an exception with the given message. */
  datatype GeminiOutcome = GeminiText(text: string) | GeminiException(message: string)

  const GeminiErrorPrefix: string := "Gemini Error (New SDK): "

  /** `ask_gemini(report)`: the reply text, or the exception folded into a
      string with the error prefix; it never raises. */
  function AskGemini(outcome: GeminiOutcome): (reply: string)
    ensures outcome.GeminiText? ==> reply == outcome.text
    ensures outcome.GeminiException? ==>
              StartsWith(reply, GeminiErrorPrefix) && reply[|GeminiErrorPrefix|..] == outcome.message
  {
    match outcome
    case GeminiText(text) => text
    case GeminiException(message) => GeminiErrorPrefix + message
  }

  /** The report's time with every ':' replaced by '-', for the file name. */
  function FileTimestamp(time: string): (ts: string)
    ensures |ts| == |time| && ':' !in ts
    ensures forall i :: 0 <= i < |time| && time[i] == ':' ==> ts[i] == '-'
    ensures forall i :: 0 <= i < |time| && time[i] != ':' ==> ts[i] == time[i]
  {
    ReplaceChar(time, ':', '-')
  }

  /** A report taken at 14:05:09 is saved as `System_Report_14-05-09.txt`. */
  lemma OfflineFileNameExample(time: string)
    requires time == "14:05:09"
    ensures FileTimestamp(time) == "14-05-09"
    ensures OfflineFileName(time) == "System_Report_14-05-09.txt"
  {
    var ts := FileTimestamp(time);
    assert ts[2] == '-' && ts[5] == '-';
    assert "System_Report_" + "14-05-09" + ".txt" == "System_Report_14-05-09.txt";
  }

  /** `System_Report_<timestamp>.txt`. */
  function OfflineFileName(time: string): (name: string)
    ensures ':' !in name
  {
    var ts := FileTimestamp(time);
    var name := "System_Report_" + ts + ".txt";
    assert forall i :: 0 <= i < |ts| ==> name[14 + i] == ts[i];
    name
  }

  /** `os.path.join(os.path.join(home), 'Desktop')`, then the file name joined
      onto it, with `posixpath.join`. */
  function OfflinePath(home: string, time: string): string
  {
    PathJoin(PathJoin(home, "Desktop"), OfflineFileName(time))
  }

  /** With `~` expanding to "/", the report lands in "/Desktop", without a
      doubled separator. */
  lemma OfflinePathAtRoot(home: string, time: string)
    requires home == "/"
    ensures OfflinePath(home, time) == "/Desktop/" + OfflineFileName(time)
  {
    assert "Desktop"[0] != '/';
    var desktop := PathJoin(home, "Desktop");
    assert desktop == "/Desktop";
    assert OfflineFileName(time)[0] != '/';
    var name := OfflineFileName(time);
    assert PathJoin(desktop, name) == desktop + "/" + name;
  }

  /** The five lines of the offline text file. */
  function OfflineLines(time: string, ip: string, diskPercent: nat): seq<string>
  {
    ["OFFLINE REPORT",
     "Time: " + time,
     "IP: " + ip,
     "Internet: UNAVAILABLE",
     "Disk: " + NatToString(diskPercent) + "%"]
  }

  /** The text `save_offline` writes: the five lines, each followed by a newline. */
  function OfflineText(time: string, ip: string, diskPercent: nat): string
  {
    JoinLines(OfflineLines(time, ip, diskPercent))
  }

  /** The offline text is exactly five newline-terminated lines — the title,
      the time, the IP, the verdict and the disk usage — whenever the time
      and the IP hold no newline themselves. */
  lemma OfflineTextHasFiveLines(time: string, ip: string, diskPercent: nat)
    requires '\n' !in time && '\n' !in ip
    ensures |OfflineLines(time, ip, diskPercent)| == 5
    ensures forall l :: l in OfflineLines(time, ip, diskPercent) ==> '\n' !in l
    ensures OfflineLines(time, ip, diskPercent)[0] == "OFFLINE REPORT"
    ensures OfflineLines(time, ip, diskPercent)[3] == "Internet: UNAVAILABLE"
  {
    var digits := NatToString(diskPercent);
    assert '\n' !in digits;
    NoNewlineInJoin("Time: ", time);
    NoNewlineInJoin("IP: ", ip);
    NoNewlineInJoin("Disk: ", digits);
    NoNewlineInJoin("Disk: " + digits, "%");
  }

  /** The written text, spelled out as the five f-strings of the source. */
  lemma OfflineTextSpelledOut(time: string, ip: string, diskPercent: nat)
    ensures OfflineText(time, ip, diskPercent) ==
              "OFFLINE REPORT" + "\n" + ("Time: " + time) + "\n" + ("IP: " + ip) + "\n" +
              "Internet: UNAVAILABLE" + "\n" + ("Disk: " + NatToString(diskPercent) + "%") + "\n"
  {
    var lines := OfflineLines(time, ip, diskPercent);
    assert lines == [lines[0], lines[1], lines[2], lines[3], lines[4]];
    JoinFiveLines(lines[0], lines[1], lines[2], lines[3], lines[4]);
  }

  lemma JoinFiveLines(l0: string, l1: string, l2: string, l3: string, l4: string)
    ensures JoinLines([l0, l1, l2, l3, l4]) ==
              l0 + "\n" + l1 + "\n" + l2 + "\n" + l3 + "\n" + l4 + "\n"
  {
    assert JoinLines([l0]) == l0 + "\n" by {
      assert [l0][..0] == [];
    }
    assert JoinLines([l0, l1]) == JoinLines([l0]) + l1 + "\n" by {
      assert [l0, l1][..1] == [l0];
    }
    assert JoinLines([l0, l1, l2]) == JoinLines([l0, l1]) + l2 + "\n" by {
      assert [l0, l1, l2][..2] == [l0, l1];
    }
    assert JoinLines([l0, l1, l2, l3]) == JoinLines([l0, l1, l2]) + l3 + "\n" by {
      assert [l0, l1, l2, l3][..3] == [l0, l1, l2];
    }
    assert JoinLines([l0, l1, l2, l3, l4]) == JoinLines([l0, l1, l2, l3]) + l4 + "\n" by {
      assert [l0, l1, l2, l3, l4][..4] == [l0, l1, l2, l3];
    }
  }

  lemma NoNewlineInJoin(a: string, b: string)
    requires '\n' !in a && '\n' !in b
    ensures '\n' !in a + b
  {
    assert forall i :: 0 <= i < |a + b| ==> (a + b)[i] == (if i < |a| then a[i] else b[i - |a|]);
  }

  /** The online status line, followed by the AI reply. */
  const OnlineBanner: string := "\U{2705} STATUS: ONLINE\n\nGemini Response:\n"

  /** The offline status line, followed by the saved file's name. */
  const OfflineBanner: string := "\U{274C} STATUS: OFFLINE\nData saved to desktop:\n"

  /** The returned offline status names the file `System_Report_<timestamp>.txt`. */
  lemma OfflineStatusNamesFile(home: string, time: string)
    requires '/' !in time
    ensures Basename(OfflinePath(home, time)) == OfflineFileName(time)
  {
    var ts := FileTimestamp(time);
    var name := OfflineFileName(time);
    assert '/' !in ts by {
      forall i | 0 <= i < |ts| ensures ts[i] != '/' {
        assert time[i] != '/';
      }
    }
    assert '/' !in name by {
      assert name == "System_Report_" + ts + ".txt";
      forall i | 0 <= i < |name| ensures name[i] != '/' {
        if 14 <= i < 14 + |ts| {
          assert name[i] == ts[i - 14];
        }
      }
    }
    BasenameOfJoin(PathJoin(home, "Desktop"), name);
  }

  /** `save_offline(report)`: writes the offline text to the report path and
      returns that path; a failed write raises (an `OSError`). */
  method SaveOffline(report: Report, home: string, writeSucceeds: bool)
    returns (path: Result<string>, calls: seq<Call>)
    ensures calls == [FileWrite(OfflinePath(home, report.time),
                                OfflineText(report.time, report.network.ip, report.diskPercent))]
    ensures path == if writeSucceeds then Ok(OfflinePath(home, report.time)) else Err("OSError")
  {
    var filename := OfflinePath(home, report.time);
    var text := OfflineText(report.time, report.network.ip, report.diskPercent);
    calls := [FileWrite(filename, text)];
    path := if writeSucceeds then Ok(filename) else Err("OSError");
  }

  /** `run_process()`: one probe run, then the online or offline dispatch.
      Besides the status text (or the exception a failed file write raises),
      it returns the report `quickcheck()` built, the probes it ran, and the
      trace of every call the run made. */
  method RunProcess(cfg: Config, w: World, serialize: Report -> string, home: string,
                    gemini: GeminiOutcome, writeSucceeds: bool)
    returns (result: Result<string>, report: Report, probes: seq<Call>, calls: seq<Call>)
    // The report and the probes are those of `quickcheck()`.
    ensures QuickcheckOutcome(w, report, probes)
    ensures report.network.status <==> w.connect.Connected?
    ensures forall i :: 0 <= i < |probes| ==> !probes[i].IsDispatch()
    // Online: the AI request, then the chat message with its reply, once each.
    ensures report.network.status ==>
              calls == probes + [GeminiRequest(cfg.geminiApiKey, GeminiPrompt(serialize(report))),
                                 TelegramSend(cfg.telegramChatId, AskGemini(gemini))] &&
              result == Ok(OnlineBanner + AskGemini(gemini))
    // Offline: the file write alone, and its name in the status text.
    ensures !report.network.status ==>
              calls == probes + [FileWrite(OfflinePath(home, w.time), OfflineText(w.time, report.network.ip, w.diskPercent))] &&
              result == (if writeSucceeds then Ok(OfflineBanner + Basename(OfflinePath(home, w.time)))
                         else Err("OSError"))
    ensures !report.network.status && writeSucceeds && '/' !in w.time ==>
              result == Ok(OfflineBanner + OfflineFileName(w.time))
  {
    report, probes := Quickcheck(w);
    calls := probes;
    if report.network.status {
      // ONLINE
      var reply := AskGemini(gemini);
      calls := calls + [GeminiRequest(cfg.geminiApiKey, GeminiPrompt(serialize(report)))];
      calls := calls + [TelegramSend(cfg.telegramChatId, reply)];
      result := Ok(OnlineBanner + reply);
    } else {
      // OFFLINE
      var saved, writeCalls := SaveOffline(report, home, writeSucceeds);
      calls := calls + writeCalls;
      if saved.Ok? {
        result := Ok(OfflineBanner + Basename(saved.value));
        if '/' !in w.time {
          OfflineStatusNamesFile(home, w.time);
        }
      } else {
        result := Err(saved.error);
      }
    }
  }
}
