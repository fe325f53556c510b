/** Interface discovery: `find_real_interface_offline`, which picks a physical
    interface with an IPv4 address when there is no route to the internet, and
    the online lookup in `quickcheck` that names the interface owning the
    socket's local address. */
module Interfaces {
  import opened Common

  datatype Family = IPv4 | IPv6 | OtherFamily

  /** One address of an interface, as `psutil.net_if_addrs()` lists it. */
  datatype Address = Address(family: Family, address: string)

  /** One entry of `psutil.net_if_stats()`, in enumeration order. */
  datatype InterfaceStat = InterfaceStat(name: string, isUp: bool)

  /** One entry of `psutil.net_if_addrs()`, in enumeration order. */
  datatype AddrEntry = AddrEntry(name: string, addrs: seq<Address>)

  /** The `{'IP': ..., 'Interface': ...}` record the offline search returns. */
  datatype Candidate = Candidate(ip: string, iface: string)

  /** Adapter names containing any of these (after lower-casing) are discarded. */
  const StopWords: seq<string> := [
    "loopback", "virtual", "pseudo", "tunnel", "vmware", "box",
    "bluetooth", "hyper-v", "wsl",
    "utun", "awdl", "llw", "gif", "stf", "ap1",
    "docker", "veth", "br-", "bridge"
  ]

  /** Lower-cased names discarded only on an exact match. */
  const LoopbackNames: seq<string> := ["lo", "lo0"]

  /** `addrs[name]` when `name in addrs`; the table's names are its dictionary keys. */
  function AddressesOf(table: seq<AddrEntry>, name: string): (r: Option<seq<Address>>)
    ensures r.None? <==> forall k :: 0 <= k < |table| ==> table[k].name != name
    ensures r.Some? ==> exists k :: 0 <= k < |table| && table[k].name == name && table[k].addrs == r.value
  {
    if table == [] then None
    else if table[0].name == name then Some(table[0].addrs)
    else AddressesOf(table[1..], name)
  }

  /** The lower-cased name contains one of the stop words. */
  predicate IsJunkName(nameLower: string)
  {
    exists k :: 0 <= k < |StopWords| && Contains(nameLower, StopWords[k])
  }

  /** The first IPv4 address of an interface, the only one the search looks at. */
  function FirstIPv4(addrs: seq<Address>): (r: Option<string>)
    ensures r.None? <==> forall k :: 0 <= k < |addrs| ==> addrs[k].family != IPv4
    ensures r.Some? ==> exists k :: 0 <= k < |addrs| && addrs[k] == Address(IPv4, r.value) &&
                                    forall j :: 0 <= j < k ==> addrs[j].family != IPv4
  {
    if addrs == [] then None
    else if addrs[0].family == IPv4 then Some(addrs[0].address)
    else FirstIPv4(addrs[1..])
  }

  /** What one interface contributes to the candidate list: a candidate exactly
      when it passes all four filters (up, not `lo`/`lo0`, no stop word, and a
      first IPv4 address outside 127.*). The name keeps its original case. */
  function CandidateOf(stat: InterfaceStat, table: seq<AddrEntry>): Option<Candidate>
  {
    var nameLower := Lower(stat.name);
    if !stat.isUp || nameLower in LoopbackNames || IsJunkName(nameLower) then None
    else match AddressesOf(table, stat.name)
      case None => None
      case Some(addrs) =>
        match FirstIPv4(addrs)
        case None => None
        case Some(ip) => if StartsWith(ip, "127.") then None else Some(Candidate(ip, stat.name))
  }

  /** Each interface's contribution, as a function value. */
  function CandidateFn(table: seq<AddrEntry>): InterfaceStat -> Option<Candidate>
  {
    stat => CandidateOf(stat, table)
  }

  /** The `candidates` list after visiting `stats` in order. */
  function Candidates(stats: seq<InterfaceStat>, table: seq<AddrEntry>): seq<Candidate>
  {
    Collect(stats, CandidateFn(table))
  }

  /** `candidates[0] if candidates else None`. */
  function FirstCandidate(stats: seq<InterfaceStat>, table: seq<AddrEntry>): Option<Candidate>
  {
    var cs := Candidates(stats, table);
    if cs == [] then None else Some(cs[0])
  }

  /** The search returns None exactly when no interface survives the filters,
      and otherwise the candidate of the first interface that does. */
  lemma FirstCandidateIsFirstSurvivor(stats: seq<InterfaceStat>, table: seq<AddrEntry>)
    ensures FirstCandidate(stats, table).None? <==>
              forall i :: 0 <= i < |stats| ==> CandidateOf(stats[i], table).None?
    ensures FirstCandidate(stats, table).Some? ==>
              exists k :: 0 <= k < |stats| && CandidateOf(stats[k], table) == FirstCandidate(stats, table) &&
                          forall j :: 0 <= j < k ==> CandidateOf(stats[j], table).None?
  {
    var f := CandidateFn(table);
    CollectHeadIsFirstValue(stats, f);
    assert forall i :: 0 <= i < |stats| ==> f(stats[i]) == CandidateOf(stats[i], table);
  }

  /** Every candidate the search returns comes from an interface that is up,
      is not named `lo`/`lo0`, contains no stop word, and whose first IPv4
      address is the returned one and lies outside 127.*. */
  lemma ReturnedInterfaceIsClean(stats: seq<InterfaceStat>, table: seq<AddrEntry>, c: Candidate)
    requires FirstCandidate(stats, table) == Some(c)
    ensures exists k :: 0 <= k < |stats| && stats[k] == InterfaceStat(c.iface, true)
    ensures Lower(c.iface) !in LoopbackNames
    ensures !IsJunkName(Lower(c.iface))
    ensures !StartsWith(c.ip, "127.")
    ensures AddressesOf(table, c.iface).Some? && FirstIPv4(AddressesOf(table, c.iface).value) == Some(c.ip)
  {
    FirstCandidateIsFirstSurvivor(stats, table);
    var k :| 0 <= k < |stats| && CandidateOf(stats[k], table) == Some(c);
    assert stats[k].name == c.iface;
  }

  /** Only the first IPv4 address is examined: when it is a 127.* address the
      interface contributes nothing, whatever IPv4 addresses follow it. */
  lemma OnlyFirstIPv4Examined(stat: InterfaceStat, table: seq<AddrEntry>,
                              before: seq<Address>, loopback: string, after: seq<Address>)
    requires AddressesOf(table, stat.name) == Some(before + [Address(IPv4, loopback)] + after)
    requires forall a :: a in before ==> a.family != IPv4
    requires StartsWith(loopback, "127.")
    ensures CandidateOf(stat, table).None?
  {
    FirstIPv4Skips(before, loopback, after);
  }

  lemma {:induction false} FirstIPv4Skips(before: seq<Address>, ip: string, after: seq<Address>)
    requires forall a :: a in before ==> a.family != IPv4
    ensures FirstIPv4(before + [Address(IPv4, ip)] + after) == Some(ip)
  {
    if before != [] {
      assert (before + [Address(IPv4, ip)] + after)[1..] == before[1..] + [Address(IPv4, ip)] + after;
      FirstIPv4Skips(before[1..], ip, after);
    }
  }

  /** A tunnel adapter such as `utun7` or a container bridge such as `docker0`
      is never returned, whatever its addresses. */
  lemma TunnelAndDockerNeverReturned(stats: seq<InterfaceStat>, table: seq<AddrEntry>, c: Candidate)
    requires FirstCandidate(stats, table) == Some(c)
    ensures c.iface != "utun7" && c.iface != "docker0"
  {
    ReturnedInterfaceIsClean(stats, table, c);
    var tunnel, docker := "utun7", "docker0";
    TunnelAndDockerAreJunk(tunnel, docker);
  }

  lemma TunnelAndDockerAreJunk(tunnel: string, docker: string)
    requires tunnel == "utun7" && docker == "docker0"
    ensures IsJunkName(Lower(tunnel)) && IsJunkName(Lower(docker))
  {
    LowerOfLowercase(tunnel);
    LowerOfLowercase(docker);
    assert Contains(tunnel, StopWords[9]) by {
      assert StopWords[9] == tunnel[..4];
    }
    assert Contains(docker, StopWords[15]) by {
      assert StopWords[15] == docker[..6];
    }
  }

  /** A physical adapter named `Ethernet` holding 10.0.0.5 is returned. */
  lemma EthernetReturned(stats: seq<InterfaceStat>, table: seq<AddrEntry>)
    requires stats == [InterfaceStat("Ethernet", true)]
    requires table == [AddrEntry("Ethernet", [Address(IPv4, "10.0.0.5")])]
    ensures FirstCandidate(stats, table) == Some(Candidate("10.0.0.5", "Ethernet"))
  {
    var name, ip := stats[0].name, "10.0.0.5";
    EthernetLowered(name);
    EthernetIsNotJunk(Lower(name));
    var addrs := table[0].addrs;
    assert AddressesOf(table, name) == Some(addrs);
    assert FirstIPv4(addrs) == Some(ip);
    assert !StartsWith(ip, "127.") by {
      assert ip[1] != "127."[1];
    }
    PassingInterfaceContributes(stats[0], table, addrs, ip);
    assert stats[..0] == [];
  }

  lemma EthernetLowered(name: string)
    requires name == "Ethernet"
    ensures Lower(name) == "ethernet" && Lower(name) !in LoopbackNames
  {
    var lowered := Lower(name);
    assert lowered[0] == 'e' by {
      assert name[0] == 'E';
    }
    forall i | 1 <= i < |name| ensures lowered[i] == name[i] {
      assert !('A' <= name[i] <= 'Z');
    }
    assert forall i :: 0 <= i < |name| ==> lowered[i] == "ethernet"[i];
  }

  lemma PassingInterfaceContributes(stat: InterfaceStat, table: seq<AddrEntry>, addrs: seq<Address>, ip: string)
    requires stat.isUp && Lower(stat.name) !in LoopbackNames && !IsJunkName(Lower(stat.name))
    requires AddressesOf(table, stat.name) == Some(addrs) && FirstIPv4(addrs) == Some(ip)
    requires !StartsWith(ip, "127.")
    ensures CandidateOf(stat, table) == Some(Candidate(ip, stat.name))
  {
  }

  lemma EthernetIsNotJunk(name: string)
    requires name == "ethernet"
    ensures !IsJunkName(name)
  {
    forall k | 0 <= k < |StopWords| ensures !Contains(name, StopWords[k]) {
      var w := StopWords[k];
      assert w[0] !in name || w[1] !in name;
      if Contains(name, w) {
        ContainedCharsOccur(name, w);
      }
    }
  }

  lemma LowerOfLowercase(s: string)
    requires forall i :: 0 <= i < |s| ==> !('A' <= s[i] <= 'Z') && s[i] != KelvinSign
    ensures Lower(s) == s
  {
  }

  /** Every character of a contained word occurs in the containing string. */
  lemma {:induction false} ContainedCharsOccur(s: string, word: string)
    requires Contains(s, word)
    ensures forall c :: c in word ==> c in s
    decreases |s|
  {
    if !StartsWith(s, word) {
      ContainedCharsOccur(s[1..], word);
    } else {
      assert forall i :: 0 <= i < |word| ==> word[i] == s[i];
    }
  }

  /** `word in name_lower for word in stop_words`, with the source's early `break`. */
  method HasStopWord(nameLower: string) returns (junk: bool)
    ensures junk == IsJunkName(nameLower)
  {
    junk := false;
    var k := 0;
    while k < |StopWords|
      invariant 0 <= k <= |StopWords|
      invariant !junk
      invariant forall j :: 0 <= j < k ==> !Contains(nameLower, StopWords[j])
    {
      if Contains(nameLower, StopWords[k]) {
        junk := true;
        break;
      }
      k := k + 1;
    }
  }

  /** Visiting one more interface appends its contribution, if any. */
  lemma CandidatesStep(stats: seq<InterfaceStat>, table: seq<AddrEntry>, i: nat)
    requires i < |stats|
    ensures Candidates(stats[..i + 1], table) ==
              Candidates(stats[..i], table) +
                (match CandidateOf(stats[i], table) case None => [] case Some(c) => [c])
  {
    CollectStep(stats, CandidateFn(table), i);
  }

  /** The first IPv4 entry of a list is the one the scan stops at. */
  lemma FirstIPv4At(addrs: seq<Address>, j: nat)
    requires j < |addrs| && addrs[j].family == IPv4
    requires forall k :: 0 <= k < j ==> addrs[k].family != IPv4
    ensures FirstIPv4(addrs) == Some(addrs[j].address)
  {
    assert addrs == addrs[..j] + [Address(IPv4, addrs[j].address)] + addrs[j + 1..];
    FirstIPv4Skips(addrs[..j], addrs[j].address, addrs[j + 1..]);
  }

  /** `find_real_interface_offline()`: visits the interfaces in enumeration
      order, appends a candidate for each one that passes the filters, and
      returns the first candidate or None. */
  method FindRealInterfaceOffline(stats: seq<InterfaceStat>, table: seq<AddrEntry>)
    returns (r: Option<Candidate>)
    ensures r == FirstCandidate(stats, table)
  {
    var candidates: seq<Candidate> := [];
    for i := 0 to |stats|
      invariant candidates == Candidates(stats[..i], table)
    {
      CandidatesStep(stats, table, i);
      var name := stats[i].name;
      var nameLower := Lower(name);
      // Filter 1: the interface must be up.
      if !stats[i].isUp {
        assert CandidateOf(stats[i], table).None?;
        continue;
      }
      // Filter 2: exact loopback names.
      if nameLower in LoopbackNames {
        assert CandidateOf(stats[i], table).None?;
        continue;
      }
      // Filter 3: stop words anywhere in the name.
      var isJunk := HasStopWord(nameLower);
      if isJunk {
        assert CandidateOf(stats[i], table).None?;
        continue;
      }
      // Filter 4: the first IPv4 address, unless it is a 127.* address.
      var addrs := AddressesOf(table, name);
      if addrs.Some? {
        var list := addrs.value;
        var j := 0;
        while j < |list|
          invariant 0 <= j <= |list|
          invariant candidates == Candidates(stats[..i], table)
          invariant forall k :: 0 <= k < j ==> list[k].family != IPv4
        {
          if list[j].family == IPv4 {
            FirstIPv4At(list, j);
            if !StartsWith(list[j].address, "127.") {
              candidates := candidates + [Candidate(list[j].address, name)];
            }
            break;
          }
          j := j + 1;
        }
      }
    }
    assert stats[..|stats|] == stats;
    r := if candidates != [] then Some(candidates[0]) else None;
  }

  /** The interface `quickcheck` reports when online: the first interface
      (in enumeration order) holding the local address whose name is not
      "Unknown", else "Unknown". A match on an interface literally named
      "Unknown" does not end the search, because the loop tests the name it
      recorded against "Unknown" to decide whether it found one. */
  function InterfaceNameFor(table: seq<AddrEntry>, localIp: string): string
  {
    if table == [] then "Unknown"
    else if HasAddress(table[0], localIp) && table[0].name != "Unknown" then table[0].name
    else InterfaceNameFor(table[1..], localIp)
  }

  predicate HasAddress(entry: AddrEntry, ip: string)
  {
    exists k :: 0 <= k < |entry.addrs| && entry.addrs[k].address == ip
  }

  /** The reported name is "Unknown" exactly when no interface other than one
      named "Unknown" holds the local address, and otherwise it is the name of
      the first interface that does. */
  lemma {:induction false} InterfaceNameIsFirstOwner(table: seq<AddrEntry>, localIp: string)
    ensures InterfaceNameFor(table, localIp) == "Unknown" <==>
              forall k :: 0 <= k < |table| && HasAddress(table[k], localIp) ==> table[k].name == "Unknown"
    ensures InterfaceNameFor(table, localIp) != "Unknown" ==>
              exists k :: 0 <= k < |table| && HasAddress(table[k], localIp) &&
                          table[k].name == InterfaceNameFor(table, localIp) &&
                          forall j :: 0 <= j < k && HasAddress(table[j], localIp) ==> table[j].name == "Unknown"
  {
    if table != [] {
      InterfaceNameIsFirstOwner(table[1..], localIp);
      assert forall k :: 1 <= k < |table| ==> table[k] == table[1..][k - 1];
      if !(HasAddress(table[0], localIp) && table[0].name != "Unknown") &&
         InterfaceNameFor(table, localIp) != "Unknown" {
        var k :| 0 <= k < |table[1..]| && HasAddress(table[1..][k], localIp) &&
                 table[1..][k].name == InterfaceNameFor(table, localIp) &&
                 forall j :: 0 <= j < k && HasAddress(table[1..][j], localIp) ==> table[1..][j].name == "Unknown";
        assert HasAddress(table[k + 1], localIp);
      }
    }
  }

  /** The nested search loop of `quickcheck` with its two `break`s. */
  method FindInterfaceByIp(table: seq<AddrEntry>, localIp: string) returns (iface: string)
    ensures iface == InterfaceNameFor(table, localIp)
  {
    iface := "Unknown";
    var i := 0;
    while i < |table|
      invariant 0 <= i <= |table|
      invariant iface == "Unknown"
      invariant InterfaceNameFor(table, localIp) == InterfaceNameFor(table[i..], localIp)
    {
      var list := table[i].addrs;
      var j := 0;
      while j < |list|
        invariant 0 <= j <= |list|
        invariant iface == "Unknown"
        invariant forall k :: 0 <= k < j ==> list[k].address != localIp
      {
        if list[j].address == localIp {
          iface := table[i].name;
          break;
        }
        j := j + 1;
      }
      assert table[i..][0] == table[i] && table[i..][1..] == table[i + 1..];
      if iface != "Unknown" {
        break;
      }
      i := i + 1;
    }
  }
}
