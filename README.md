# ISP Tester Pro — decision logic in Dafny

This project models the deterministic core of a network-diagnostics tool. The tool itself wraps sockets, `subprocess`, `dnspython` and `requests`. Between those calls it decides what to log and what to return. The model covers:

- the rule-based results report;
- the TCP port-scan classifier and its summary;
- the IPv6 probe log assembly;
- the security checks (risky ports, firewall tool, DNS integrity, proxy headers, VPN);
- the DNS hijack, leak and latency classifiers;
- the selection of data for the latency chart.

Every effect of the operating system or the network is an input:

- a `connect_ex` code per port;
- a `CmdResult` (captured stdout, or the exception raised) per command;
- `Option<CmdResult>` for a tool `shutil.which` may not find;
- a `DnsLookup` (`Answer(records)`, `NXDomain` or `OtherError`);
- header maps and HTTP status codes.

Each `log(...)` callback becomes an output `seq<string>` that holds the emitted lines in order.

Where the code builds its output step by step, the model does too: methods with loops and invariants, each proved equal to a specification function. The lemmas then state the properties of those functions.

## Modules

| file | module | models |
|---|---|---|
| base.dfy | Base | the outcome datatypes shared by the probes |
| strings.dfy | Strings | Python's `strip`, `splitlines`, `lower` (ASCII), `in` on strings, `[:n]`, `str(int)`, `"%.1f"` of a whole number, list repr |
| seqs.dfy | Seqs | comprehensions (`Filter`, `Map`, `FlatMap`), `insert`, first index |
| utf8.dfy | Utf8 | `bytes.decode(errors='ignore')` and UTF-8 encoding, for banners |
| predictor.dfy | Predictor | analyzer/predictor.py |
| port_scanner.dfy | PortScanner | scanner/port_scanner.py |
| ipv6_checker.dfy | Ipv6Checker | scanner/ipv6_checker.py |
| security_tester.dfy | SecurityTester | security/security_tester.py |
| firewall_tester.dfy | FirewallTester | security/firewall_tester.py |
| proxy_tester.dfy | ProxyTester | security/proxy_tester.py |
| vpn_detector.dfy | VpnDetector | security/vpn_detector.py |
| security_dns.dfy | SecurityDns | security/dns_tester.py |
| dns_suite.dfy | DnsSuite | `run_all_dns_tests` of scanner/dns_tester.py and analyzer/database.py, and `check_latency_alert` |
| network.dfy | Network | utils/network.py |
| network_status.dfy | NetworkStatus | utils/network_status.py |
| plot.dfy | Plot | utils/plot.py |

## Behaviour of the code worth knowing

- The run of DNS tests logs nothing for a fake-domain answer with no records, because the code tests `if result:` (scanner/dns_tester.py:96, analyzer/database.py:149).
- `detect_dns_hijack` returns `False` on every exception, so an error reads as safe (utils/network_status.py:28-29).
- On POSIX the DNS cache and settings output is stripped and kept whole. Only the Windows cache listing is cut to 1000 characters.
- The DNS cache check runs `systemd-resolve` directly. When the tool is missing, the check logs its error line.
- `test_dns_hijacking` catches only `gaierror`. Any other exception escapes the function (`SecurityDns.Outcome.uncaught`).

## Model

| member | source | states |
|---|---|---|
| Predictor.AnalyzeResults | analyzer/predictor.py:1-68 | the report is built by appends, rule by rule; it equals the findings of the record rendered and joined with newlines |
| Predictor.AnalyzeSpeed | analyzer/predictor.py:6-24 | the speed block appends its section's findings |
| Predictor.AnalyzeIpv6 | analyzer/predictor.py:27-43 | the IPv6 block appends the not-supported line, or one line per truthy flag in the fixed order |
| Predictor.AnalyzeDns | analyzer/predictor.py:46-54 | the DNS block appends the best, hijack and DoH lines independently |
| Predictor.ReportFrame | analyzer/predictor.py:3-67 | the report opens with the header and closes with the footer, each exactly once |
| Predictor.ReportLinesFrame | analyzer/predictor.py:3-67 | the first report line is "📊 Results Analysis:" and the last "📌 End of analysis." |
| Predictor.ReportTextFrame | analyzer/predictor.py:67-68 | the joined text starts with the header line and ends with the footer line |
| Predictor.JoinFrame | analyzer/predictor.py:68 | `"\n".join` of one or more parts starts with the first part and ends with the last |
| Predictor.EmptyResults | analyzer/predictor.py:2-3 | an empty record yields exactly the header and the footer |
| Predictor.DownloadVerdict | analyzer/predictor.py:7-16 | with a speed section there is exactly one download verdict, by the thresholds 10 and 25, with a missing download read as 0; without one there is none |
| Predictor.UploadWarning | analyzer/predictor.py:8-19 | the upload warning is present iff there is a speed section whose upload (0 when missing) is below 2 |
| Predictor.LatencyVerdict | analyzer/predictor.py:9-24 | with a speed section there is exactly one latency verdict: high above 300, otherwise within range; a missing latency is 0 |
| Predictor.Ipv6NotSupported | analyzer/predictor.py:28-30 | a false `supported` flag leaves the not-supported line as the only IPv6 finding |
| Predictor.Ipv6Supported | analyzer/predictor.py:31-43 | when IPv6 is supported, there is a sub-line for exactly each truthy flag and no not-supported line |
| Predictor.Ipv6SubLineOrder | analyzer/predictor.py:31-43 | the sub-lines follow the order public address, link-local, temporary disabled, SLAAC, RA, IPsec |
| Predictor.Ipv6FindingsOfReport | analyzer/predictor.py:27-43 | the IPv6 findings of the report are exactly those of its IPv6 section |
| Predictor.SectionOrder | analyzer/predictor.py:6-65 | the sections appear in the order speed, IPv6, DNS, cache, location, each only when its key is present |
| Predictor.SectionsKeyed | analyzer/predictor.py:6-65 | each section holds only its own findings |
| Predictor.SectionPresent | analyzer/predictor.py:6-65 | a non-empty section has its key in the record |
| Predictor.InReport | analyzer/predictor.py:6-65 | a finding is in the report exactly when it is in its own section |
| Predictor.BestDnsShown | analyzer/predictor.py:47-50 | the best-DNS line appears iff the DNS section names a best server, and it shows that server |
| Predictor.HijackShown | analyzer/predictor.py:48-52 | the hijacking warning appears iff the DNS section flags hijacking, independent of the other DNS entries |
| Predictor.DohShown | analyzer/predictor.py:53-54 | the DoH line appears iff DoH is flagged, independent of the other DNS entries |
| Predictor.CacheLine | analyzer/predictor.py:57-60 | the cache line appears iff the TTL is present and non-zero, and it shows that TTL |
| Predictor.LocationShown | analyzer/predictor.py:63-65 | the location line appears iff the key is present, and shows its value |
| Predictor.SlowLinkScenario | analyzer/predictor.py:3-67 | download 5, upload 1, latency 400 give header, critical download, very low upload, high latency, footer, in that order |
| Predictor.RenderAllIndex | analyzer/predictor.py:1-68 | line i of the report renders finding i |
| PortScanner.ScanRange | scanner/port_scanner.py:13-29 | the loop puts each port of the range in the list its code selects; it records time and banner for open ports and logs one `[OPEN]` line per open port |
| PortScanner.ScanPort | scanner/port_scanner.py:14-29 | probing one more port extends the recorded lists to those of the range up to and including it |
| PortScanner.RunPortScan | scanner/port_scanner.py:4-56 | the log is the start line, the scan notices and the summary; the four lists are those of the specification |
| PortScanner.LogOpenPortDetails | scanner/port_scanner.py:39-48 | the detail loop logs the detail lines of the open ports, or "No open ports found." |
| PortScanner.LogBanners | scanner/port_scanner.py:51-56 | the banner loop logs one line per banner result, or the no-banner line |
| PortScanner.PortsWithMembers | scanner/port_scanner.py:20-29 | a port is in a list iff its code classifies it so (0 open; 111 or 10061 closed; other codes timeout), and only ports of the range are listed |
| PortScanner.ScanPartitionsRange | scanner/port_scanner.py:11-29 | every port in 0..1023 lands in exactly one of the three lists |
| PortScanner.ScanCountsSum | scanner/port_scanner.py:11-36 | over the first n ports the three list lengths sum to n, so 1024 for the scanned range |
| PortScanner.PortsWithAscending | scanner/port_scanner.py:13-29 | each list holds only ports below the range end and is in strictly ascending port order |
| PortScanner.OpenEntriesAreOpenPorts | scanner/port_scanner.py:20-23 | the open entries name exactly the open ports, in order |
| PortScanner.OpenEntriesCarryProbe | scanner/port_scanner.py:17-23 | each open entry carries its own port's response time and banner |
| PortScanner.BannerResultsMembers | scanner/port_scanner.py:22-25 | `banner_results` is exactly the open ports with a non-empty banner, each paired with the stripped banner |
| PortScanner.BannerResultsAscending | scanner/port_scanner.py:13-25 | banner results are in strictly ascending port order, the open-port order |
| PortScanner.PortDetailPositions | scanner/port_scanner.py:41-46 | each open port has two detail lines: its time, then its service or the unknown-service line |
| PortScanner.DetailSection | scanner/port_scanner.py:39-48 | the detail list appears iff some port is open, else the single "No open ports found." line |
| PortScanner.GrabBannerText | scanner/port_scanner.py:58-63 | a UTF-8 reply within 1024 bytes is the banner exactly |
| PortScanner.GrabBannerReadsAtMostLimit | scanner/port_scanner.py:62 | bytes past the 1024-byte read never reach the banner |
| PortScanner.GrabBannerFails | scanner/port_scanner.py:59-65 | the result is None exactly when the exchange raised |
| Utf8.DecodeEncode | scanner/port_scanner.py:63 | the `errors='ignore'` decoder returns any encoded text unchanged |
| Utf8.DecodeAscii | scanner/port_scanner.py:63 | ASCII bytes decode to the characters with the same codes |
| Ipv6Checker.CheckIpv6Support | scanner/ipv6_checker.py:28-231 | the method builds the result record, equal to that of the specification `Support` |
| Ipv6Checker.ConnectivityLoop | scanner/ipv6_checker.py:43-64 | the loop tries hosts in order and stops at the first that connects; the status line is inserted at index 1; the result says whether a host connected, and which |
| Ipv6Checker.RunProbes | scanner/ipv6_checker.py:67-224 | the probes after a connection log in source order; the method returns the chart path, route and firewall status |
| Ipv6Checker.CheckIpv6 | scanner/ipv6_checker.py:11-31 | the wrapper logs the probe's lines, then chart, route and firewall when non-empty |
| Ipv6Checker.NotSupportedResult | scanner/ipv6_checker.py:62-65 | with no connecting host, all hosts fail; the log ends with "❌ IPv6 is not supported."; the chart is None, route and firewall are empty, and no probe runs |
| Ipv6Checker.AddressChoice | scanner/ipv6_checker.py:37-48 | a non-empty lookup gives its first entry; a failed or empty lookup gives 2607:f8b0:4005:805::200e or 2606:4700:4700::1111, the fallback without its brackets |
| Ipv6Checker.StatusAfterHeader | scanner/ipv6_checker.py:35-63 | the status line sits at index 1, right after "🔍 Checking IPv6 support..." |
| Ipv6Checker.SupportedIffConnects | scanner/ipv6_checker.py:43-63 | the status is active iff some host connects |
| Ipv6Checker.FailuresBeforeWinner | scanner/ipv6_checker.py:43-60 | every host before the first that connects has its failure line, in order |
| Ipv6Checker.SuccessAfterFailures | scanner/ipv6_checker.py:55-58 | the success line of the connecting host ends the connectivity lines; later hosts are not tried |
| Ipv6Checker.LogsStartWithOpening | scanner/ipv6_checker.py:35-65 | the whole log begins with the connectivity lines |
| Ipv6Checker.KindOfCases | scanner/ipv6_checker.py:88-92 | "scope global dynamic" is Dynamic; any other "scope global" is Static; other lines are skipped |
| Ipv6Checker.GlobalDynamicIsGlobal | scanner/ipv6_checker.py:89-91 | a dynamic line is also a global line |
| Ipv6Checker.AddressTypes | scanner/ipv6_checker.py:84-94 | the classification loop logs the specification lines |
| Ipv6Checker.ClassifyLines | scanner/ipv6_checker.py:89-92 | the lines logged are, in order, the classification of each output line that has a global scope |
| Ipv6Checker.AddressTypeCount | scanner/ipv6_checker.py:87-92 | one classification line per `ip -6 addr` line containing "scope global" |
| Ipv6Checker.LocalAddresses | scanner/ipv6_checker.py:67-72 | one line per local address, or the failure line |
| Ipv6Checker.QualityTest | scanner/ipv6_checker.py:115-143 | the five-attempt ping test logs its section; an attempt that raises ends it with one error |
| Ipv6Checker.PingAttempts | scanner/ipv6_checker.py:118-129 | the attempts loop gives the lines and samples of the specification and the attempt that raised |
| Ipv6Checker.PingStep | scanner/ipv6_checker.py:119-129 | one attempt either raised, or extends the lines and samples to those of one attempt more |
| Ipv6Checker.ReadReply | scanner/ipv6_checker.py:121-129 | one output gives a reply line with its sample, or the no-reply line |
| Ipv6Checker.TimeMatchSound | scanner/ipv6_checker.py:123 | a match of `time[=<]\s*(\d+(\.\d+)?)` captures a decimal number that occurs in the text |
| Ipv6Checker.SearchTimeSound | scanner/ipv6_checker.py:123-126 | what `re.search` extracts is a decimal number found in the output |
| Ipv6Checker.SubMillisecondReply | scanner/ipv6_checker.py:122-129 | "time<1ms" has no "time=" marker, so the attempt logs "❌ No reply received." and adds no sample, although the pattern would read "1" |
| Ipv6Checker.SamplesBound | scanner/ipv6_checker.py:118-126 | at most one sample per attempt that ran, so at most 5 |
| Ipv6Checker.ChartSaved | scanner/ipv6_checker.py:130-141 | the chart path is set iff all attempts ran and some gave a sample |
| Ipv6Checker.PingErrorEnds | scanner/ipv6_checker.py:142-143 | an attempt that raises ends the test with its error line; no average and no chart follow |
| Ipv6Checker.RouteShown | scanner/ipv6_checker.py:145-153 | the route text is empty iff IPv6 is unsupported or traceroute ran and printed only whitespace |
| Ipv6Checker.FirewallShown | scanner/ipv6_checker.py:155-163 | the firewall text is empty iff IPv6 is unsupported or ip6tables ran and printed only whitespace |
| Ipv6Checker.SecurityVerdicts | scanner/ipv6_checker.py:173-181 | the security section has five lines; the fourth is the temporary-address verdict and the fifth the SLAAC verdict, each chosen by whether its keyword occurs |
| Ipv6Checker.ToolFallbacks | scanner/ipv6_checker.py:145-224 | a missing traceroute gives "⚠ 'traceroute' is not installed on this system." and a missing ip6tables "⚠ ip6tables is not available on this system."; the router-advertisement check logs only "⚠ radvdump is not installed." iff radvdump is missing, and the IPsec check logs "ℹ IPsec tool is not installed." after its header iff the IPsec tool is missing |
| Ipv6Checker.RadvdumpFallback | scanner/ipv6_checker.py:185-196 | the router-advertisement check's lines are only the not-installed line exactly when radvdump is missing |
| Ipv6Checker.IpsecFallback | scanner/ipv6_checker.py:213-224 | after the IPsec header the only line is the not-installed line exactly when the IPsec tool is missing |
| Ipv6Checker.CountInet6Absent | scanner/ipv6_checker.py:168-169 | output without "inet6 " counts no address of any scope |
| Ipv6Checker.LoopbackSweep | scanner/ipv6_checker.py:198-211 | the port loop returns the open loopback ports and the one summary line |
| Ipv6Checker.OpenAmongSpec | scanner/ipv6_checker.py:200-207 | for an ascending port list, the open ports are exactly those that accept a connection, ascending |
| Ipv6Checker.LoopbackOpenPortsSpec | scanner/ipv6_checker.py:199-211 | `open_ports` is the subsequence of [22, 80, 443, 8080, 8443] whose `connect_ex` returned 0 |
| Ipv6Checker.LogReport | scanner/ipv6_checker.py:19-31 | the wrapper's loop and appends give the wrapper lines of the result |
| SecurityTester.RunSecurityTests | security/security_tester.py:9-16 | the checks run in the order firewall, DNS, proxy, HTTPS, VPN, between the start and completion lines |
| SecurityTester.RiskyVerdict | security/security_tester.py:21-27 | the clean line appears iff no open port is in {21, 23, 139, 445, 3389} |
| SecurityTester.FirewallShape | security/security_tester.py:20-35 | header and risky-port verdict come first, then the OS branch |
| SecurityTester.OsBranch | security/security_tester.py:29-35 | the branch depends on the system name only up to case; any OS other than Windows or Linux gives the "Unknown OS" line |
| SecurityTester.ToolPriority | security/security_tester.py:52-65 | ufw shadows iptables, which shadows firewall-cmd; "No firewall tool found." iff none is present |
| SecurityTester.ToolOutputBounds | security/security_tester.py:55-63 | ufw and iptables output is cut to 1000 characters; firewalld output is the whole stripped output |
| SecurityTester.WindowsFirewallCases | security/security_tester.py:38-46 | on Windows one line is logged: with exit code 0, the stripped `netsh` output, whole up to 1000 characters and otherwise its first 1000; with another code, the failure line; when it cannot run, the error line |
| SecurityTester.CheckDnsIntegrity | security/security_tester.py:71-101 | the resolver loop gives one line per resolver, then the leak lines |
| SecurityTester.CheckResolver | security/security_tester.py:80-88 | one resolver's `nslookup` gives its line |
| SecurityTester.LeakTest | security/security_tester.py:91-101 | the leak test logs one responder line per server, or the empty or error line |
| SecurityTester.ResolverVerdict | security/security_tester.py:81-88 | the hijack line appears iff nslookup ran and its stripped output contains "Address:" |
| SecurityTester.EveryResolverAsked | security/security_tester.py:79-88 | every resolver has its line, and each line depends only on that resolver's run, so an exception for one does not stop the next |
| SecurityTester.CheckProxyHeaders | security/security_tester.py:105-117 | the indicator loop gives one line per present indicator in list order, then the clean line iff none was seen |
| SecurityTester.ProxyVerdict | security/security_tester.py:110-115 | the indicator lines are those of the present indicators in order; the clean line appears iff there are none |
| SecurityTester.IndicatorLinesEmpty | security/security_tester.py:111-115 | no indicator line is logged exactly when no indicator header is present |
| SecurityTester.TunnelAnyCase | security/security_tester.py:139 | all three markers are matched on the lowercased listing, so "TUN0" counts |
| SecurityTester.VpnVerdict | security/security_tester.py:135-144 | header plus one line: the tunnel line iff the listing ran and names "tun", "ppp" or "vpn" in any case, the no-tunnel line iff it ran and names none, else the error; the listing is `ipconfig` iff the system is Windows up to case |
| FirewallTester.DangerousMembers | security/firewall_tester.py:2-3 | a port is dangerous iff it is open and risky |
| FirewallTester.DangerousKeepsDuplicates | security/firewall_tester.py:3 | each risky port occurs as often as among the open ports |
| FirewallTester.DangerousKeepsOrder | security/firewall_tester.py:3 | filtering commutes with concatenation, so the open-port order is kept |
| FirewallTester.FirewallLinesShape | security/firewall_tester.py:5-10 | the header comes first; two warning lines follow when a port is dangerous, else one clean line |
| FirewallTester.NoRiskyPortsClean | security/firewall_tester.py:3-10 | no risky open port gives exactly the header and the clean line |
| ProxyTester.TransparentVerdict | security/proxy_tester.py:3-11 | a transparent proxy is reported iff `Via` or `X-Forwarded-For` is present |
| ProxyTester.SuspiciousEntries | security/proxy_tester.py:20-21 | `suspicious` is `h: v` for each listed header present, in list order |
| ProxyTester.NothingSuspicious | security/proxy_tester.py:21-22 | nothing is suspicious iff none of the listed headers is present |
| ProxyTester.ProxyHeaderLinesShape | security/proxy_tester.py:22-27 | the output is the warning plus one line per entry, or exactly the clean line |
| ProxyTester.CaseSensitiveNames | security/proxy_tester.py:21 | a lower-case `x-real-ip` key is not matched |
| VpnDetector.OneVerdict | security/vpn_detector.py:5-13 | after the header comes exactly one line: the detected line iff the command ran and its output passes the detection predicate, the no-VPN line iff it ran and fails it, and the error line when it raised |
| VpnDetector.CaseOfMarkers | security/vpn_detector.py:8 | "TUN" alone is not detected, "VPN" is |
| VpnDetector.CommandChoice | security/vpn_detector.py:7 | the command is "ipconfig" iff the host name has no '.' |
| SecurityDns.HijackingOutcomes | security/dns_tester.py:5-12 | a resolved name is unexpected and only `gaierror` gives the safe line; any other exception escapes with only the header logged |
| SecurityDns.HijackingAdvanced | security/dns_tester.py:14-33 | the advanced test logs its header, then the loop's lines |
| SecurityDns.ResolverLoop | security/dns_tester.py:23-33 | the loop over the resolvers stops at the first exception |
| SecurityDns.AskResolver | security/dns_tester.py:24-31 | one turn logs the resolver's line, then stops if its run raised |
| SecurityDns.FlaggedIffBoth | security/dns_tester.py:28-31 | a resolver is flagged iff its output contains both "Name:" and "Address:" |
| SecurityDns.AllResolversChecked | security/dns_tester.py:18-31 | with no exception, each resolver gets the verdict on its own stripped output, one line each, in list order |
| SecurityDns.FirstErrorAborts | security/dns_tester.py:16-33 | the first exception logs one general error, ends the test, and leaves later resolvers unasked |
| SecurityDns.LeakVerdict | security/dns_tester.py:35-44 | status 200 is valid, any other status a possible leak, and an exception means untested |
| SecurityDns.LeakAdvanced | security/dns_tester.py:46-63 | the responder loop gives the lines of the advanced leak test |
| SecurityDns.ResponderLines | security/dns_tester.py:52-57 | one responder line per server, in order |
| SecurityDns.ResponderDefaults | security/dns_tester.py:55-57 | missing fields show as "Unknown" and "N/A" |
| DnsSuite.RunAllDnsTests | scanner/dns_tester.py:33-125 | the run logs the header, the server lines, the chart notice and the later checks; `times` is that of the specification |
| DnsSuite.ServerLoop | analyzer/database.py:96-110 | the server loop logs one line per server and appends a time only for those that replied |
| DnsSuite.TimesOfAnswered | scanner/dns_tester.py:47-58 | `times` holds `(name, elapsed)` for exactly the servers that replied, in order; at most 9 entries |
| DnsSuite.OneLinePerServer | scanner/dns_tester.py:48-58 | every server produces exactly one line, a success line iff it replied |
| DnsSuite.ChartIffAnswered | scanner/dns_tester.py:60-70 | the chart notice appears iff some server replied |
| DnsSuite.AlertSuffix | analyzer/database.py:64-65 | the 🚨 suffix appears iff the latency is above 300 ms (300 is not an alert), and only in the database copy |
| DnsSuite.HijackAgreesWithNetwork | analyzer/database.py:145-154 | the fake-domain check follows the tri-state of `detect_dns_hijacking`: an answer with records is suspicious (an empty one logs nothing), NXDOMAIN is normal, another error is only logged |
| DnsSuite.SettingsFilter | scanner/dns_tester.py:117-120 | the Windows settings are exactly the lines containing "DNS Servers", stripped, prefixed "→ ", in order |
| DnsSuite.LogSettingEntries | analyzer/database.py:171-173 | the loop logs those settings lines |
| DnsSuite.LogServerLines | analyzer/database.py:171-173 | the lines logged are the stripped `DNS Servers` lines of the output, in order |
| DnsSuite.CheckSettings | scanner/dns_tester.py:114-125 | the settings check gives the Windows lines, the POSIX stripped file, or the error |
| DnsSuite.CacheOutputBounds | scanner/dns_tester.py:105-110 | the Windows cache output is cut to 1000 characters; the POSIX output is stripped, not cut |
| DnsSuite.DohVerdict | scanner/dns_tester.py:85-88 | the DoH reply counts as received iff its status is not a client or server error, 400-599 (`r.ok`); otherwise the failure line is logged |
| Network.TriState | utils/network.py:16-22 | an answer maps to True, NXDOMAIN to False, and any other error to None |
| Network.SingleQuery | utils/network.py:14-17 | only the one query, for `fake_domain` at `dns_server`, decides the verdict |
| Network.DefaultQuery | utils/network.py:12 | by default "example.invalid" is queried at 8.8.8.8 |
| NetworkStatus.HijackVerdict | utils/network_status.py:19-29 | hijack is reported iff some answer record lacks "93.184.216.34"; all-matching answers and errors are False |
| NetworkStatus.AnyForeignExists | utils/network_status.py:24-27 | the early-return loop is an existence test |
| NetworkStatus.Ipv6Verdict | utils/network_status.py:12-17 | IPv6 is reported iff `getaddrinfo` returned a non-empty list; an exception gives False |
| NetworkStatus.CheckInternet | utils/network_status.py:5-10 | the result is "Connected" or "Disconnected" |
| NetworkStatus.SummaryFields | utils/network_status.py:31-36 | the summary has the fields internet, ipv6 and dns_hijack, each the check of that name |
| Plot.Paired | utils/plot.py:4-5 | `names` and `latencies` have equal length; entry i of each comes from the same record; no latency is None |
| Plot.AppendRecord | utils/plot.py:4-5 | a record without latency adds to neither list; one with latency adds its name and latency at the end |
| Plot.ChartedIffMeasured | utils/plot.py:4-5 | a record is charted iff its latency is present |

## Left out

- The socket, subprocess, dnspython, requests and `platform` calls are not modelled: their outcomes are inputs.
- Concurrency is left out. The GUI's worker threads run outside these functions.
- gui/main_window.py is not part of this model: it is a UI with no diagnostic logic.
- test/performance/speed_test.py is not part of this model: it wraps an external service and does float arithmetic.
- security/ssl_checker.py and `check_https_support` (security/security_tester.py:121-131) are not modelled: a TLS handshake through `ssl` decides nothing. `SecurityTester.Env.httpsLines` stands for the lines it logs.
- utils/storage.py and utils/logger.py are not part of this model: they are file I/O and timestamps. The same goes for `save_result`, `get_public_ip`, `get_geolocation` and `compress_old_results` in analyzer/database.py.
- The `check_ipv6` wrappers of analyzer/database.py:68-79 and scanner/dns_tester.py:17-31 are not modelled: they call a function those files never define or import.
- `measure_latency` (utils/network.py:4-10) is left out: it is a clock and a socket connect.
- Matplotlib charting and `savefig` are left out. Only the decision whether a chart is drawn is modelled, with the fixed path it logs. An exception from the plotting library is not modelled.
- Floating point is left out.
  - Elapsed times and latencies are whole milliseconds.
  - The ping sample keeps the matched digit text, and its `:.2f` rendering and the mean's rendering are parameters.
  - A port's response time is whole milliseconds, printed with ".00".
- DnsSuite.AlertSuffix: says nothing about fractional latencies between 300 and 301 ms, which the source flags, because times are whole milliseconds.
- `lower()` and `\d` are ASCII-only here. Python's `str.lower` and `\d` also cover other scripts. `strip` and `splitlines` follow Python's full whitespace and line-break sets.
- `connect_ex` raising in the port scanner (rather than returning a code) is not modelled. Every port gets a code.
- Predictor.SlowLinkScenario: stated on the list of findings and their rendering, not on the joined text.
- The IPv6 lemmas about the connectivity lines are stated on `Opening` (the log up to the verdict). `LogsStartWithOpening` places them in the full log.
- Ipv6Checker.RunProbes: builds each probe's lines in a helper before appending them to the log, rather than appending one line at a time.
- The IPv6 checker's `findall` counts read `\d` as ASCII digits and `\s` as the `str.isspace` set. Digits of other scripts are not matched.
- SecurityDns.Outcome: an exception other than `gaierror` is returned as `uncaught`, not propagated.
- The DNS suite assumes one `platform.system()` value for the whole run.
