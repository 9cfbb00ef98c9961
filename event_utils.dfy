/**
 * The controller's event helpers: the reverse lookup from a session to the
 * agent bound to it, and the plain-text rendering of an agent's client info.
 */
module EventUtils {
  import opened Wrappers
  import opened Text
  import opened Dicts
  import opened Helper
  import opened AgentEvents

  /**
   * `get_agent_id_by_sid`: scans the registry in insertion order and answers the
   * first agent bound to `sid`, or nothing when no agent is; it is the same
   * lookup the disconnect handler performs.
   */
  method GetAgentIdBySid(reg: Registry, sid: string) returns (r: Option<string>)
    ensures r == KeyOf(reg.agents, sid)
    ensures r.None? <==> forall i :: 0 <= i < |reg.agents| ==> reg.agents[i].1 != sid
    ensures r.Some? ==> exists i :: 0 <= i < |reg.agents| && reg.agents[i] == (r.value, sid)
  {
    var items := reg.agents;
    for i := 0 to |items|
      invariant forall j :: 0 <= j < i ==> items[j].1 != sid
    {
      if items[i].1 == sid {
        KeyOfFirst(items, sid, i);
        return Some(items[i].0);
      }
    }
    return None;
  }

  /** The agent record handed to the renderer; only `client_info` is read. */
  datatype AgentData = AgentData(clientInfo: Option<ClientInfo>)

  /** What the renderer shows for a field that is absent. */
  const Unknown: string := "Unknown"

  /** `d.get(key, "Unknown")`. */
  function Shown(o: Option<string>): string {
    o.GetOr(Unknown)
  }

  /** The empty `client_info` / `osinfo` dictionaries used when the key is absent. */
  const NoClientInfo: ClientInfo := ClientInfo(None, None, None, None, None, None, None)
  const NoOsInfo: OsInfo := OsInfo(None, None, None, None, None)

  /** One interface line: `"  - name: ip1, ip2"`, or `"No IPs"` for an empty address list. */
  function InterfaceLine(iface: NetInterface): string {
    "  - " + iface.name + ": " + (if iface.ips != [] then Join(", ", iface.ips) else "No IPs")
  }

  /** The interface lines, in list order. */
  function InterfaceLines(ifaces: seq<NetInterface>): (r: seq<string>)
    ensures |r| == |ifaces| && forall k :: 0 <= k < |r| ==> r[k] == InterfaceLine(ifaces[k])
  {
    seq(|ifaces|, k requires 0 <= k < |ifaces| => InterfaceLine(ifaces[k]))
  }

  /** The five OS lines, as one text. */
  function OsDetails(os: OsInfo): string {
    ("  - CPUs: " + Shown(os.cpus))
    + "\n" + ("  - Kernel: " + Shown(os.kernel))
    + "\n" + ("  - Core Version: " + Shown(os.core))
    + "\n" + ("  - Platform: " + Shown(os.platform))
    + "\n" + ("  - OS: " + Shown(os.os))
  }

  /** The report template: one labelled line per field, the two blocks under their headings. */
  function Layout(processId: string, ipAddress: string, interfaces: string, osDetails: string,
                  codename: string, hostname: string, username: string): string
  {
    "Client Info:"
    + "\n" + ("- Process ID: " + processId)
    + "\n" + ("- IP Address: " + ipAddress)
    + "\n" + "- Network Interfaces:"
    + "\n" + interfaces
    + "\n" + "- OS Info:"
    + "\n" + osDetails
    + "\n" + ("- Codename: " + codename)
    + "\n" + ("- Hostname: " + hostname)
    + "\n" + ("- Username: " + username)
  }

  /** `format_agent_client_info`: the client info as a fixed sequence of labelled lines. */
  function FormatAgentClientInfo(agent: AgentData): string {
    var info := agent.clientInfo.GetOr(NoClientInfo);
    Layout(Shown(info.processId), Shown(info.ipAddress),
           Join("\n", InterfaceLines(info.netInterfaces.GetOr([]))),
           OsDetails(info.osInfo.GetOr(NoOsInfo)),
           Shown(info.codename), Shown(info.hostname), Shown(info.username))
  }

  /** No rendered value holds a line break. */
  predicate SingleLineValues(agent: AgentData) {
    var info := agent.clientInfo.GetOr(NoClientInfo);
    var os := info.osInfo.GetOr(NoOsInfo);
    var ifaces := info.netInterfaces.GetOr([]);
    && '\n' !in Shown(info.processId) && '\n' !in Shown(info.ipAddress)
    && '\n' !in Shown(info.codename) && '\n' !in Shown(info.hostname) && '\n' !in Shown(info.username)
    && '\n' !in Shown(os.cpus) && '\n' !in Shown(os.kernel) && '\n' !in Shown(os.core)
    && '\n' !in Shown(os.platform) && '\n' !in Shown(os.os)
    && forall k :: 0 <= k < |ifaces| ==>
         '\n' !in ifaces[k].name && forall j :: 0 <= j < |ifaces[k].ips| ==> '\n' !in ifaces[k].ips[j]
  }

  /**
   * The report, line by line: the header, process id and address, the
   * interfaces heading followed by one line per interface (a blank line when
   * there are none), the OS heading and its five lines, then codename, hostname
   * and username; every absent field reads "Unknown".
   */
  function ReportLines(agent: AgentData): seq<string> {
    var info := agent.clientInfo.GetOr(NoClientInfo);
    var os := info.osInfo.GetOr(NoOsInfo);
    var ifaces := info.netInterfaces.GetOr([]);
    ["Client Info:", "- Process ID: " + info.processId.GetOr("Unknown"),
     "- IP Address: " + info.ipAddress.GetOr("Unknown"), "- Network Interfaces:"]
    + (if ifaces == [] then [""] else InterfaceLines(ifaces))
    + ["- OS Info:"]
    + ["  - CPUs: " + os.cpus.GetOr("Unknown"), "  - Kernel: " + os.kernel.GetOr("Unknown"),
       "  - Core Version: " + os.core.GetOr("Unknown"), "  - Platform: " + os.platform.GetOr("Unknown"),
       "  - OS: " + os.os.GetOr("Unknown")]
    + ["- Codename: " + info.codename.GetOr("Unknown"), "- Hostname: " + info.hostname.GetOr("Unknown"),
       "- Username: " + info.username.GetOr("Unknown")]
  }

  /** Splitting one more line off the end of a text. */
  lemma SplitLine(a: string, line: string)
    requires '\n' !in line
    ensures Split(a + "\n" + line, '\n') == Split(a, '\n') + [line]
  {
    assert a + "\n" + line == a + ['\n'] + line;
    SplitAtSeparator(a, line, '\n');
    SplitPlain(line, '\n');
  }

  /** The OS details split into their five lines. */
  lemma OsDetailsLines(os: OsInfo)
    requires '\n' !in Shown(os.cpus) && '\n' !in Shown(os.kernel) && '\n' !in Shown(os.core)
    requires '\n' !in Shown(os.platform) && '\n' !in Shown(os.os)
    ensures Split(OsDetails(os), '\n') ==
      ["  - CPUs: " + Shown(os.cpus), "  - Kernel: " + Shown(os.kernel), "  - Core Version: " + Shown(os.core),
       "  - Platform: " + Shown(os.platform), "  - OS: " + Shown(os.os)]
  {
    var l1 := "  - CPUs: " + Shown(os.cpus);
    var l2 := "  - Kernel: " + Shown(os.kernel);
    var l3 := "  - Core Version: " + Shown(os.core);
    var l4 := "  - Platform: " + Shown(os.platform);
    FourLines(l1, l2, l3, l4);
    SplitLine(l1 + "\n" + l2 + "\n" + l3 + "\n" + l4, "  - OS: " + Shown(os.os));
  }

  /** The interface block splits into its interface lines (one blank line when there are none). */
  lemma InterfaceBlockLines(ifaces: seq<NetInterface>)
    requires forall k :: 0 <= k < |ifaces| ==>
      '\n' !in ifaces[k].name && forall j :: 0 <= j < |ifaces[k].ips| ==> '\n' !in ifaces[k].ips[j]
    ensures Split(Join("\n", InterfaceLines(ifaces)), '\n') == if ifaces == [] then [""] else InterfaceLines(ifaces)
  {
    var lines := InterfaceLines(ifaces);
    forall k | 0 <= k < |lines| ensures '\n' !in lines[k] {
      var iface := ifaces[k];
      if iface.ips != [] {
        JoinAvoids(", ", iface.ips, '\n');
      }
    }
    assert "\n" == ['\n'];
    SplitJoin(lines, '\n');
  }

  /** Four single lines joined by line breaks split back into those lines. */
  lemma FourLines(l1: string, l2: string, l3: string, l4: string)
    requires '\n' !in l1 && '\n' !in l2 && '\n' !in l3 && '\n' !in l4
    ensures Split(l1 + "\n" + l2 + "\n" + l3 + "\n" + l4, '\n') == [l1, l2, l3, l4]
  {
    SplitPlain(l1, '\n');
    SplitLine(l1, l2);
    SplitLine(l1 + "\n" + l2, l3);
    SplitLine(l1 + "\n" + l2 + "\n" + l3, l4);
  }

  /**
   * The shape of the report: four lines, a block, a line, a block, three lines;
   * each block contributes its own lines.
   */
  lemma TemplateLines(l1: string, l2: string, l3: string, l4: string, block1: string, l6: string,
                      block2: string, l8: string, l9: string, l10: string)
    requires '\n' !in l1 && '\n' !in l2 && '\n' !in l3 && '\n' !in l4 && '\n' !in l6
    requires '\n' !in l8 && '\n' !in l9 && '\n' !in l10
    ensures Split(l1 + "\n" + l2 + "\n" + l3 + "\n" + l4 + "\n" + block1 + "\n" + l6 + "\n" + block2
                  + "\n" + l8 + "\n" + l9 + "\n" + l10, '\n')
      == [l1, l2, l3, l4] + Split(block1, '\n') + [l6] + Split(block2, '\n') + [l8, l9, l10]
  {
    var p4 := l1 + "\n" + l2 + "\n" + l3 + "\n" + l4;
    var p5 := p4 + "\n" + block1;
    var p6 := p5 + "\n" + l6;
    var p7 := p6 + "\n" + block2;
    var p8 := p7 + "\n" + l8;
    var p9 := p8 + "\n" + l9;
    FourLines(l1, l2, l3, l4);
    assert Split(p5, '\n') == [l1, l2, l3, l4] + Split(block1, '\n') by {
      assert p5 == p4 + ['\n'] + block1;
      SplitAtSeparator(p4, block1, '\n');
    }
    SplitLine(p5, l6);
    assert Split(p7, '\n') == [l1, l2, l3, l4] + Split(block1, '\n') + [l6] + Split(block2, '\n') by {
      assert p7 == p6 + ['\n'] + block2;
      SplitAtSeparator(p6, block2, '\n');
    }
    SplitLine(p7, l8);
    SplitLine(p8, l9);
    SplitLine(p9, l10);
  }

  /** The template splits into its lines, the two blocks contributing their own lines. */
  lemma LayoutLines(processId: string, ipAddress: string, interfaces: string, osDetails: string,
                    codename: string, hostname: string, username: string)
    requires '\n' !in processId && '\n' !in ipAddress
    requires '\n' !in codename && '\n' !in hostname && '\n' !in username
    ensures Split(Layout(processId, ipAddress, interfaces, osDetails, codename, hostname, username), '\n')
      == ["Client Info:", "- Process ID: " + processId, "- IP Address: " + ipAddress, "- Network Interfaces:"]
         + Split(interfaces, '\n') + ["- OS Info:"] + Split(osDetails, '\n')
         + ["- Codename: " + codename, "- Hostname: " + hostname, "- Username: " + username]
  {
    TemplateLines("Client Info:", "- Process ID: " + processId, "- IP Address: " + ipAddress, "- Network Interfaces:",
                  interfaces, "- OS Info:", osDetails,
                  "- Codename: " + codename, "- Hostname: " + hostname, "- Username: " + username);
  }

  /**
   * Read back line by line, the rendered text is exactly `ReportLines`, provided
   * no value holds a line break of its own.
   */
  lemma FormatLines(agent: AgentData)
    requires SingleLineValues(agent)
    ensures Split(FormatAgentClientInfo(agent), '\n') == ReportLines(agent)
  {
    var info := agent.clientInfo.GetOr(NoClientInfo);
    var os := info.osInfo.GetOr(NoOsInfo);
    var ifaces := info.netInterfaces.GetOr([]);
    var block := Join("\n", InterfaceLines(ifaces));
    InterfaceBlockLines(ifaces);
    OsDetailsLines(os);
    LayoutLines(Shown(info.processId), Shown(info.ipAddress), block, OsDetails(os),
                Shown(info.codename), Shown(info.hostname), Shown(info.username));
  }
}
