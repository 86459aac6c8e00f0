# Verified models of the lab's stateful logic

Most of the repository is Helm templates and values. This project models the hand-written logic in it that has state,
recursion or arithmetic, and proves properties of it for all inputs, all runs and all interleavings. Verify everything
with `dafny verify dfyconfig.toml`.

| module | what it models |
|---|---|
| `Cutting`, `HtmlTree`, `MobileReader`, `MobileContent` | the phone's page view: a walk over any tree that prints a restricted markup through one builder and starts nothing new past 128000 bytes. The specification is a token stream, a filter and a lexer and parser written independently of the printer; the walk, an imperative class, is proved equal to printing the cut stream. `MobileContent` says on the parsed tree alone what such a page shows, and that it does |
| `TextReader`, `TextContent` | the text view of a page: title, words and at most about thirty links; `TextContent` says what each of them is in terms of the tree |
| `ViewerConnection` | the reconnecting viewer controller with its two timers, the clients it creates, online and stopped flags, and backoff, against an environment that fires any pending timer once due and emits events of any client ever made, in any order |
| `QfiFallback` | the reconcile loop over OpenFlow tables 0, 11, 13 and 14, with matching as in OpenFlow 1.3 section 5.3 and replacement as in section 6.4 |
| `Bootstrap`, `BootstrapRequests` | the cluster bootstrap script over an abstract configuration of the Cores, the IMS and the SMS centre. One run is a sequence of steps with at most one lasting change each, so every stop after a request is a stop after a step; the only request inside a step that leaves something behind is the join token. `BootstrapRequests` says which POST requests a complete run makes |
| `SmsLedger`, `SmsEffects` | message histories and delivery marks, each critical section under a phone's mutex being one atomic step of an interleaving; `SmsEffects` says what each section does, and which messages a receipt reaches |
| `RtpSource` | the synthetic voice packets, RFC 3550 section 5.1 |
| `Socks` | the SOCKS5 handshake up to relaying, RFC 1928 sections 3 to 6 |
| `Supervisor` | the simulator supervisor's polling loop with generations, misses and restarts |
| `RunnerMetrics` | the throughput sampler, the bitrate format and the run lock of the scenario runner |
| `Text` | UTF-8 sizes and white-space separated words, shared by the others |

State that the source updates in place is a class whose methods follow the source statement by statement and are proved
against a transition function or a closed form; the properties are lemmas about those functions. Results of the
network, the clock, randomness, external processes and libraries are parameters or events that range over everything
possible.

Where a plausible property is false of the code, the project proves exactly when it holds:

- at most 30 links: exactly when no anchor has more than one `href`, or there are not 31 different addresses to lead to
  (`TextReader.ThirtyLinksExactly`), because the count is checked once per anchor, not once per attribute;
- message lists in id order: exactly when no message arrives between taking the number of a submission and storing it
  (`SmsLedger.HistorySortedExactly`);
- a repeated fallback pass is idle: exactly when entries that differ only in QFI agree on actions
  (`QfiFallback.Config.PassSettlesExactly`);
- a restarted bootstrap of a fresh Core without reconciliation reaches the same configuration: exactly when it was
  stopped after every seeded network that differs (`Bootstrap.Pass.LostFreshExactly`), because whether the Core is fresh
  is computed again; the enrolment loop completes exactly when every wanted subscriber that exists is on the one page of
  a hundred that it lists (`Bootstrap.Session.Enrol`);
- deliveries are covered by receipts: exactly when no trackers run (`SmsLedger.ReceiptsCoverDeliveriesExactly`);
- an active Core is launched against: without children, exactly when it is not already the recorded target
  (`Supervisor.IdleLaunchesExactly`), so a launch that raised before starting anything is never repeated
  (`Supervisor.FailedLaunchIsFinal`);
- a ready simulator has its processes: except exactly when the last launch, against the same Core, raised having
  started too few (`Supervisor.ReadyLacksProcessesExactly`, `Supervisor.ReadyWithoutProcessesExactly`);
- every SOCKS request is answered: exactly a complete CONNECT request to an IPv4 or domain address is
  (`Socks.AnsweredExactly`). RFC 1928 section 6 asks for a reply to unsupported commands and address types too; the
  code closes the connection without one. It also accepts any value in the reserved byte.

## Model

| member | source | states |
|---|---|---|
| MobileReader.Rules.PageRoundTrip | ella-core/ue-phones/app/browse.go:153-201 | when the uncut page takes at most 128000 bytes, lexing and unescaping the page and parsing the tokens with an independent recursive-descent parser gives exactly the filtered tree: dropped subtrees gone, other unlisted elements unwrapped, listed elements and accepted anchors kept in order, adjacent text merged |
| MobileReader.Rules.PageIsPrefixPlusClosers | ella-core/ue-phones/app/browse.go:160-197 | for every tree the page is the uncut page up to and including the first write that passes 128000 bytes, followed only by the closing tags of the elements then open, innermost first |
| MobileReader.Rules.EveryPageParses | ella-core/ue-phones/app/browse.go:153-201 | every page, cut or not, lexes back to the tokens written and is accepted whole by the parser, so it is well nested |
| MobileReader.Rules.CutIsSound | ella-core/ue-phones/app/browse.go:160-197 | the tokens written for any tree, from any starting length, are printable and close everything they open, including void tags and anchors |
| MobileReader.Rules.ParseTokens | ella-core/ue-phones/app/browse.go:168-197 | the tokens of a filtered tree, followed by an enclosing closing tag or nothing, parse to its normal form and leave exactly what follows |
| MobileReader.PageWriter.Walk | ella-core/ue-phones/app/browse.go:160-198 | the recursive walk over the shared builder appends exactly what the cut token stream of the subtree prints |
| MobileReader.PageWriter.AnchorTarget | ella-core/ue-phones/app/browse.go:177-189 | only the first `href` of an anchor is considered, accepted or not |
| MobileReader.MobileRulesAreValid | ella-core/ue-phones/app/browse.go:170-176 | the element lists of the source satisfy what the proofs ask of them: kept and dropped names are disjoint and every kept tag can be told from a closing tag and from an anchor |
| MobileContent.PageShows | ella-core/ue-phones/app/browse.go:153-201 | read back, every page shows what stands in the parsed tree outside the dropped subtrees, from the start of the document on, and all of it when the output stays under the limit: every character of text, every kept element and accepted anchor, in document order, each inside exactly the tags of its kept ancestors; stated on the tree, without filtering or printing |
| MobileContent.TreeAccount | ella-core/ue-phones/app/browse.go:160-198 | the same for the uncut tokens of every subtree, whatever their length |
| MobileContent.PageText | ella-core/ue-phones/app/browse.go:164-167 | the text of a page under the limit is the data of all text nodes outside dropped subtrees, in document order |
| MobileContent.TargetExactly | ella-core/ue-phones/app/browse.go:177-189 | an anchor is written exactly when its first `href` resolves to an acceptable address, and leads there |
| MobileContent.MobilePage | ella-core/ue-phones/app/browse.go:153-201 | the method returns the page that the theorems above are about, for the element lists of the source, and what it shows is what the tree has to show |
| HtmlTree.UnescapeEscape | ella-core/ue-phones/app/browse.go:165 | unescaping inverts escaping whatever follows |
| HtmlTree.Escape | ella-core/ue-phones/app/browse.go:165 | escaped text contains none of the characters that delimit tags and attribute values |
| Cutting.Printer.WrittenIsFirstPast | ella-core/ue-phones/app/browse.go:161-163 | everything up to the first token that takes the output past the limit is written, and nothing else is started |
| Cutting.Printer.CutConcat | ella-core/ue-phones/app/browse.go:192-194 | cutting siblings written one after the other is cutting the whole stream once |
| Cutting.Printer.CutElement | ella-core/ue-phones/app/browse.go:161-197 | an element started below the limit gets its closing tag wherever its content is cut |
| TextReader.Rules.ReadKeepsWords | ella-core/ue-phones/app/browse.go:203-279 | the words of the returned text are a prefix of the words of the kept text nodes in document order, and all of them when the text stays within 32000 bytes |
| TextReader.Rules.ReadLinks | ella-core/ue-phones/app/browse.go:237-253 | returned links have pairwise distinct URLs, are the first occurrences among the candidates in document order, stop early only at a limit, and number at most 29 + m when no anchor has more than m `href` attributes |
| TextContent.VisitedExactly | ella-core/ue-phones/app/browse.go:225-269 | the walk meets exactly the nodes outside dropped subtrees and not below a title, in document order |
| TextContent.TextExactly | ella-core/ue-phones/app/browse.go:225-278 | the returned text to the letter: the words of the text nodes met, up to the first with which the limit is passed, one space between words and a blank line wherever a block element stood between them |
| TextContent.TitleExactly | ella-core/ue-phones/app/browse.go:233-235 | the returned title is the words of the last title met before the limit, joined by single spaces, or empty |
| TextContent.LinksExactly | ella-core/ue-phones/app/browse.go:237-253 | every returned link is one of an anchor met, with the address its `href` resolves to and the words inside the anchor; below both limits every address an anchor met leads to is returned |
| TextReader.ThirtyLinksExactly | ella-core/ue-phones/app/browse.go:237-253 | whatever references the reader accepts, at most 30 links are returned for every page whose anchors have at most m `href` attributes exactly when m is 1 or there are not 31 accepted references with different addresses |
| TextReader.CrowdedPageHas31 | ella-core/ue-phones/app/browse.go:237-253 | for any 31 accepted references with different addresses, a page of 29 single-link anchors followed by one anchor with the last two returns all 31 links |
| TextReader.ContentsKeepsWords | ella-core/ue-phones/app/browse.go:213-223 | collapsing white space at every level neither loses, joins nor reorders words |
| TextReader.LayoutKeepsWords | ella-core/ue-phones/app/browse.go:271-278 | splitting into lines, trimming, dropping blank lines and joining keeps every word in order |
| TextReader.UnseenIsDistinct | ella-core/ue-phones/app/browse.go:243-247 | the seen map keeps first occurrences only, in order, and covers exactly the URLs offered |
| TextReader.Collect | ella-core/ue-phones/app/browse.go:213-223 | the recursive text collector computes the collapsed contents |
| TextReader.LayOut | ella-core/ue-phones/app/browse.go:271-278 | the final loop computes the layout |
| TextReader.PageReader.OfferLinks | ella-core/ue-phones/app/browse.go:237-253 | one anchor appends those of its addresses not seen before and keeps the seen map in step with the list |
| TextReader.PageReader.Walk | ella-core/ue-phones/app/browse.go:225-269 | the recursive walk over text, title, links and seen map performs the visited nodes in document order |
| TextReader.ReadPage | ella-core/ue-phones/app/browse.go:203-279 | the method returns title, text and links of the page that the theorems above are about |
| ViewerConnection.ReachableStates | ella-core/ue-phones/browser/connection.js:2-31 | after any events in any order the controller is in exactly one of its five modes, the published one; no pending timer is untracked; online and not stopped it has a client or a pending retry; the only live client is its own |
| ViewerConnection.Viewer.StepInv | ella-core/ue-phones/browser/connection.js:5-29 | every handler keeps the invariant behind this |
| ViewerConnection.Viewer.ExactlyOneMode | ella-core/ue-phones/browser/connection.js:2-29 | the five modes exclude one another and each is equivalent to its published name |
| ViewerConnection.StaleEventsAreIgnored | ella-core/ue-phones/browser/connection.js:20-22 | an event of a replaced client leaves the whole state unchanged, and no deadline of one is ever pending |
| ViewerConnection.BackoffOfAnyRun | ella-core/ue-phones/browser/connection.js:6-21 | `attempt` equals the retries scheduled since the last connected event or reconnect, and their total delay lies between S(n) and S(n) + 249n |
| ViewerConnection.TotalDelay | ella-core/ue-phones/browser/connection.js:9 | the first n delays sum to between S(n) and S(n) + 249n, where S(n) = 1000(2^n - 1) up to 4 and 15000 + 10000(n - 4) beyond |
| ViewerConnection.SilentControllerTriesAgain | ella-core/ue-phones/browser/connection.js:6-24 | a connecting or reconnecting controller that hears nothing makes a new attempt within timeoutMs + 10249 ms of virtual time |
| ViewerConnection.SilentRunsGoOn | ella-core/ue-phones/browser/connection.js:6-24 | silence never stops time: from every such state, for any environment choice, a silent run reaches any later moment, so the bound is never met by time standing still |
| ViewerConnection.StoppedStaysSilent | ella-core/ue-phones/browser/connection.js:7-27 | a stopped controller makes no attempt and keeps no timer or client until start or reconnect |
| ViewerConnection.OfflineWaits | ella-core/ue-phones/browser/connection.js:8-29 | an offline controller makes no attempt while the network is away and one at once when it returns, unless stopped |
| ViewerConnection.StartConnects | ella-core/ue-phones/browser/connection.js:26 | from every reachable state: not stopped; online one attempt is made, with a new client, its deadline and state connecting, or, if the constructor throws, a retry at the next delay; offline nothing is pending; the backoff counter is kept |
| ViewerConnection.ReconnectConnects | ella-core/ue-phones/browser/connection.js:28 | the same with the backoff counter at zero |
| ViewerConnection.StopStops | ella-core/ue-phones/browser/connection.js:27 | stopped, without client or timer, no attempt |
| ViewerConnection.OnlineConnects | ella-core/ue-phones/browser/connection.js:29 | when the network returns, a controller neither stopped nor connected makes an attempt, any other only notes it |
| ViewerConnection.OfflineGivesUp | ella-core/ue-phones/browser/connection.js:29 | when the network goes away, client and timers are gone and the state is offline, or stopped if it was |
| ViewerConnection.TimersAct | ella-core/ue-phones/browser/connection.js:11-20 | the retry timer makes an attempt; a deadline drops the client and schedules a retry at the next delay of 1, 2, 4, 8, 10 s |
| ViewerConnection.ConnectedSettles | ella-core/ue-phones/browser/connection.js:21 | the connected event of the current client settles the connection, cancels the deadline and resets the backoff |
| ViewerConnection.DisconnectedRetries | ella-core/ue-phones/browser/connection.js:22 | the disconnected event of the current client forgets it and schedules a retry at the next delay |
| ViewerConnection.BrowserConnection.constructor | ella-core/ue-phones/browser/connection.js:2 | the initial state is stopped and online, and satisfies the invariant |
| ViewerConnection.BrowserConnection.Clear | ella-core/ue-phones/browser/connection.js:4 | both timers are cancelled and forgotten |
| ViewerConnection.BrowserConnection.Drop | ella-core/ue-phones/browser/connection.js:5 | the client is forgotten and disconnected |
| ViewerConnection.BrowserConnection.Retry | ella-core/ue-phones/browser/connection.js:6-12 | the whole new state, as the transition function says |
| ViewerConnection.BrowserConnection.TryConnect | ella-core/ue-phones/browser/connection.js:13-24 | the whole new state, also when the constructor throws |
| ViewerConnection.BrowserConnection.Start | ella-core/ue-phones/browser/connection.js:26 | performs its transition and keeps the invariant |
| ViewerConnection.BrowserConnection.Stop | ella-core/ue-phones/browser/connection.js:27 | performs its transition and keeps the invariant |
| ViewerConnection.BrowserConnection.Reconnect | ella-core/ue-phones/browser/connection.js:28 | performs its transition and keeps the invariant |
| ViewerConnection.BrowserConnection.SetOnline | ella-core/ue-phones/browser/connection.js:29 | performs its transition and keeps the invariant |
| ViewerConnection.BrowserConnection.OnTimer | ella-core/ue-phones/browser/connection.js:11-20 | a timer that fires performs its transition and keeps the invariant |
| ViewerConnection.BrowserConnection.OnClientConnected | ella-core/ue-phones/browser/connection.js:21 | performs its transition and keeps the invariant |
| ViewerConnection.BrowserConnection.OnClientDisconnected | ella-core/ue-phones/browser/connection.js:22 | performs its transition and keeps the invariant |
| QfiFallback.Config.HigherMatchesKept | magma-agw-upstream/templates/pipelined.deployment.yaml:196-222 | one pass keeps the winning entries, with their actions, of every packet that matched above the fallback priority, at the QFI priority included, even when the switch refuses some additions |
| QfiFallback.Config.OtherTrafficKept | magma-agw-upstream/templates/pipelined.deployment.yaml:196-222 | packets that meet no rewritten entry on all its fields but the QFI keep their winning entries and actions |
| QfiFallback.Config.OutsideTunnelsKept | magma-agw-upstream/templates/pipelined.deployment.yaml:200-210 | only entries at the QFI priority on the GTP port with a tunnel id and a QFI are rewritten: a packet that meets none of those keeps its winners and actions |
| QfiFallback.Config.FallbackWins | magma-agw-upstream/templates/pipelined.deployment.yaml:196-222 | a packet that meets every field of a rewritten entry but the QFI, and nothing above the fallback priority, has a winner there, and every winner carries the actions of an entry it so meets or is an entry that was there |
| QfiFallback.Config.TunnelGetsQfiActions | magma-agw-upstream/templates/pipelined.deployment.yaml:196-222 | with one QFI entry a tunnel and nothing else overlapping at the fallback priority, such a packet has a winner, and every winner has the fallback priority and the actions of the QFI entry |
| QfiFallback.Config.FallbackAgreesWithQfi | magma-agw-upstream/templates/pipelined.deployment.yaml:196-222 | those are the actions the same packet would get if it carried the expected QFI, because then the QFI entry wins |
| QfiFallback.Config.OneEntryIsConsistent | magma-agw-upstream/templates/pipelined.deployment.yaml:196-222 | with one QFI entry a tunnel, entries never disagree |
| QfiFallback.Config.PassOverwrites | magma-agw-upstream/templates/pipelined.deployment.yaml:196-222 | a later pass overwrites everything an earlier one derived |
| QfiFallback.Config.PassSettlesExactly | magma-agw-upstream/templates/pipelined.deployment.yaml:196-222 | a repeated pass changes nothing, whatever order the two dumps come in, exactly when QFI entries that differ only in QFI carry the same actions |
| QfiFallback.Config.ConsistentOrder | magma-agw-upstream/templates/pipelined.deployment.yaml:196-222 | entries that agree make the order of the dump irrelevant |
| QfiFallback.Config.ConflictDependsOnOrder | magma-agw-upstream/templates/pipelined.deployment.yaml:196-222 | two entries that disagree make two orders of the dump give different tables |
| QfiFallback.Config.SubscriberPasses | magma-agw-upstream/templates/pipelined.deployment.yaml:175-178 | an IPv4 packet with register 1 at 0x1 from a subscriber, or at 0x10 to one, that nothing above the pass priority and no foreign entry at it claims is resubmitted |
| QfiFallback.Config.SubscriberUnblocked | magma-agw-upstream/templates/pipelined.deployment.yaml:179-182 | the entries at the pass priority for both directions of a subscriber are gone from tables 13 and 14 |
| QfiFallback.Config.SubscribersExactly | magma-agw-upstream/templates/pipelined.deployment.yaml:167-174 | a subscriber is exactly an address of 192.168.128.0/24 that an entry at priority 65503 from the local port sends to |
| QfiFallback.Config.OthersUnaffected | magma-agw-upstream/templates/pipelined.deployment.yaml:175-184 | packets that are neither from a subscriber nor to one, in those registers, are classified in tables 11, 13 and 14 as before |
| QfiFallback.Config.SecondIterationIsIdle | magma-agw-upstream/templates/pipelined.deployment.yaml:165-222 | a second iteration over both steps changes nothing and keeps the condition for that |
| QfiFallback.Config.LoopSettles | magma-agw-upstream/templates/pipelined.deployment.yaml:187-227 | any number of iterations leaves what the first one made, while nothing else writes the tables |
| QfiFallback.Config.AdmitEffect | magma-agw-upstream/templates/pipelined.deployment.yaml:175-184 | adding and deleting subscriber by subscriber has the effect of doing it for the set of subscribers |
| QfiFallback.Switch.AddFlow | magma-agw-upstream/templates/pipelined.deployment.yaml:217 | an added entry replaces the one with the same priority and match, unless refused |
| QfiFallback.Switch.ReconcileClassifier | magma-agw-upstream/templates/pipelined.deployment.yaml:196-222 | the read loop makes table 0 the pass over the entries not refused and touches no other table |
| QfiFallback.Switch.EnsureSessionPassFlows | magma-agw-upstream/templates/pipelined.deployment.yaml:165-185 | the loop over subscribers makes tables 11, 13 and 14 what the theorems above are about |
| QfiFallback.Iteration | magma-agw-upstream/templates/pipelined.deployment.yaml:187-227 | one turn performs both steps, the first over the entries whose derived flows the switch does not refuse, or nothing while the bridge does not exist |
| Bootstrap.Pass.RunMeetsGoal | ella-core/ella-core/files/bootstrap.py:21-120 | a run fails exactly when a node cannot be named or an IP pool would have to change under sessions; otherwise it leaves precisely the configuration given by a closed form in the initial one |
| Bootstrap.Pass.RestartMakesNoDifference | ella-core/ella-core/files/bootstrap.py:21-120 | with reconciliation on, or on an initialised Core, stopping after any request and running again under the same leader fails exactly when the uninterrupted run fails, and leaves the same configuration either way |
| Bootstrap.Pass.RestartMeetsGoal | ella-core/ella-core/files/bootstrap.py:21-120 | whichever initialised node leads at the restart, it fails exactly when the uninterrupted run fails, and otherwise ends in the configuration aimed at from the beginning under that leader |
| Bootstrap.Pass.Rerun | ella-core/ella-core/files/bootstrap.py:29-119 | running some steps and starting over with these and more comes to the same as running them all at once, failing or not |
| Bootstrap.Pass.ActKeepsGoal | ella-core/ella-core/files/bootstrap.py:29-119 | every single request of a run keeps the configuration a complete run would reach, even one led by another node |
| Bootstrap.Pass.RepeatPostsOnlyLogin | ella-core/ella-core/files/bootstrap.py:29-119 | repeating a complete run with the same leader and addresses posts nothing but the login and changes nothing |
| Bootstrap.Pass.LostFreshOnlyAffectsNetworks | ella-core/ella-core/files/bootstrap.py:27-88 | when a run on a fresh Core is stopped after `init` and repeated without reconciliation, every component but the networks is that of the uninterrupted run, and a network differs only if it was missed: then it is as `init` installed it |
| Bootstrap.Pass.LostFreshExactly | ella-core/ella-core/files/bootstrap.py:27-88 | such a restart reaches the outcome of the uninterrupted run exactly when no seeded network that differs from the plan was still to come |
| Bootstrap.SeededNetworkIsMissed | ella-core/ella-core/files/bootstrap.py:27-88 | a concrete Core, plan and stop right after `init` for which the restart ends in another configuration |
| Bootstrap.Pass.AttachedPoolKept | ella-core/ella-core/files/bootstrap.py:83-88 | no step, failing or not, changes the IP pool, sessions or IPv6 pool of a network with sessions |
| Bootstrap.Pass.RunKeepsAttachedPool | ella-core/ella-core/files/bootstrap.py:79-90 | nor does any part of a run |
| Bootstrap.Pass.DiameterPeersDescribeCores | ella-core/ella-core/files/bootstrap.py:104-108 | for any number of existing peers the first COUNT peers by id describe the Core ordinals in order, exactly the leader has priority 10, ids are kept, and later peers are untouched |
| Bootstrap.Pass.RunRaisesExactly | ella-core/ella-core/files/bootstrap.py:50-86 | part of a run fails exactly when one of its steps was blocked before it began |
| Bootstrap.Pass.DoneStays | ella-core/ella-core/files/bootstrap.py:29-119 | no step undoes what another one did |
| Bootstrap.Pass.DoneIsIdle | ella-core/ella-core/files/bootstrap.py:29-119 | a step with nothing left to do changes nothing and makes no POST request, signing in excepted |
| Bootstrap.Pass.DoneIsGoal | ella-core/ella-core/files/bootstrap.py:29-119 | a configuration in which every planned step is done is the one aimed at |
| Bootstrap.Pass.RestHas | ella-core/ella-core/files/bootstrap.py:34-119 | every planned step is in the script |
| BootstrapRequests.RequestsExactly | ella-core/ella-core/files/bootstrap.py:29-119 | a complete run begins with `init` on a fresh Core or else a login, and signs in once; it asks for a token right before each join, joins as many followers as were outside the cluster, and creates exactly the planned networks and subscribers that did not exist |
| BootstrapRequests.SettingsExactly | ella-core/ella-core/files/bootstrap.py:73-110 | after it the resources every run writes hold their planned bodies, those it creates exist, and any that existed but are not rewritten are as before |
| Bootstrap.Session.DiscoverLeader | ella-core/ella-core/files/bootstrap.py:21-28 | node 0, or the first node of an initialised cluster that claims to lead; networks may be changed when that node is fresh or reconciliation is on |
| Bootstrap.Session.SignIn | ella-core/ella-core/files/bootstrap.py:29-32 | init or login, with the configuration after it |
| Bootstrap.Session.JoinFollowers | ella-core/ella-core/files/bootstrap.py:35-44 | the loop carries out exactly the join steps |
| Bootstrap.Session.NameMembers | ella-core/ella-core/files/bootstrap.py:48-59 | the loop carries out the naming steps up to the first that fails |
| Bootstrap.Session.TurnOffNat | ella-core/ella-core/files/bootstrap.py:61-65 | carries out its step when a gateway is used |
| Bootstrap.Session.EnsureResource | ella-core/ella-core/files/bootstrap.py:71-72 | carries out its step: created when missing, else left |
| Bootstrap.Session.Rewrite | ella-core/ella-core/files/bootstrap.py:74-75 | carries out its step |
| Bootstrap.Session.ProvideNetwork | ella-core/ella-core/files/bootstrap.py:80-88 | carries out its step, or fails under sessions |
| Bootstrap.Session.ProvideNetworks | ella-core/ella-core/files/bootstrap.py:79-90 | the loop carries out the network and policy steps up to the first that fails |
| Bootstrap.Session.DescribeSmsc | ella-core/ella-core/files/bootstrap.py:94-97 | carries out its step: the first listed peer is rewritten by id, or one is added |
| Bootstrap.Session.DescribePeers | ella-core/ella-core/files/bootstrap.py:104-108 | the loop over peers listed once, addressed by id, carries out the peer steps in order |
| Bootstrap.Session.Enrol | ella-core/ella-core/files/bootstrap.py:111-119 | the script fails exactly when a wanted subscriber exists but is not on the one page listed; otherwise it carries out the enrolment steps |
| Bootstrap.Session.Bootstrap | ella-core/ella-core/files/bootstrap.py:21-120 | the whole script, loops and early exits included, does what a complete run of the steps does |
| SmsLedger.StatusMovesForward | ella-core/ue-phones/app/server.go:164-192 | under every interleaving of the action, receive and tracking steps a kept message moves only from submitting to accepted, failed or delivered, or from accepted to delivered; delivered and failed are final; dropped messages do not return |
| SmsLedger.DeliveriesAreBacked | ella-core/ue-phones/app/server.go:177-189 | for each sender, receiver and text the messages ever marked on a receipt never outnumber the receipts; without trackers neither do the messages that show as delivered |
| SmsLedger.ReceiptsCoverDeliveriesExactly | ella-core/ue-phones/app/server.go:402-404 | deliveries are covered by receipts in every interleaving exactly when no trackers run |
| SmsLedger.TrackedWithoutReceipt | ella-core/ue-phones/app/phone_gnb.go:41-91 | a run in which a tracker marks a message delivered without a receipt of this process |
| SmsLedger.HistoryOfAnyRun | ella-core/ue-phones/app/server.go:170-173 | under every interleaving each history is the last min(n, 100) of its n appends, id, direction, peer and text, ignoring only status; ids are unique across phones; received messages are in increasing id order |
| SmsLedger.UniqueIds | ella-core/ue-phones/app/server.go:381-385 | no two messages anywhere were added under one id |
| SmsLedger.StoreKeepsOrderExactly | ella-core/ue-phones/app/server.go:381-385 | storing a numbered message keeps the list in id order exactly when the list is empty or its last id is smaller; the same for everything ever added |
| SmsLedger.HistorySortedExactly | ella-core/ue-phones/app/server.go:381-385 | under every interleaving a phone's messages were added in id order exactly when none arrived between taking the number of a submission and storing it; then the list kept is in id order too |
| SmsLedger.HistoryNeedNotBeSorted | ella-core/ue-phones/app/server.go:381-385 | a run that leaves a list out of id order |
| SmsLedger.StepInv | ella-core/ue-phones/app/server.go:164-192 | every critical section, of any phone, keeps the invariant behind these |
| SmsEffects.LookMarksFirst | ella-core/ue-phones/app/server.go:177-189 | a receiver that looks at a phone with the sender's number marks there exactly the first sent message to its number with the text that is being submitted or accepted, and counts one mark; if there is none, or the number is another, nothing changes |
| SmsEffects.ReceiptReachesSenders | ella-core/ue-phones/app/server.go:164-192 | in every run a receiver that listens again has meanwhile looked at every phone of its list with the sender's number, and each had that message marked when it looked |
| SmsEffects.NumberTakes | ella-core/ue-phones/app/server.go:381 | a submission takes the next id and changes nothing else |
| SmsEffects.StoreAppends | ella-core/ue-phones/app/server.go:382-385 | it is appended as sent and being submitted, at most the last hundred being kept |
| SmsEffects.ResultReports | ella-core/ue-phones/app/server.go:391-404 | the outcome is recorded in the message with its id unless that was delivered, in no other, and a tracker starts exactly after a success |
| SmsEffects.ReceiveAppends | ella-core/ue-phones/app/server.go:170-173 | an arriving message takes the next id, is appended as received, and counts as a receipt for its sender |
| SmsEffects.PollConfirms | ella-core/ue-phones/app/phone_gnb.go:60-91 | a confirmed message is marked and its tracker ends; a tracker without its message ends too |
| SmsLedger.DashboardPhone.TrimHistory | ella-core/ue-phones/app/server.go:193-197 | keeps the last hundred messages |
| SmsLedger.DashboardPhone.AddMessage | ella-core/ue-phones/app/server.go:382-385 | appends and trims |
| SmsLedger.DashboardPhone.ReportSubmission | ella-core/ue-phones/app/server.go:395-401 | the loop sets the status of the message with the id unless it is delivered, and no other |
| SmsLedger.DashboardPhone.MarkDelivered | ella-core/ue-phones/app/server.go:180-186 | the loop marks exactly the first sent message with the peer and text that is being submitted or accepted, and no other |
| SmsLedger.DashboardPhone.PollTracked | ella-core/ue-phones/app/phone_gnb.go:60-88 | marks the tracked message when the other process confirms it; reports when it is no longer kept |
| RtpSource.Media | ella-core/ue-phones/app/server.go:227-279 | the loop with its wrapping counters builds the k-th packet of the closed form at the k-th packet, failed sends included, and counts exactly the successful sends |
| RtpSource.DecodePacket | ella-core/ue-phones/app/server.go:262-267 | a packet decodes to version 2, payload type 116, SSRC 1 and the number and timestamp it was built from |
| RtpSource.SameNumbersExactly | ella-core/ue-phones/app/server.go:268-269 | two packets share sequence number and timestamp exactly when their indices agree modulo 2^26 |
| Socks.ConnectRoundTrip | ella-core/ue-phones/app/browser.go:59-126 | for every byte stream that starts with a well-formed no-authentication CONNECT to an IPv4 or domain address, the parser finds the encoded host and port and consumes exactly the request |
| Socks.RelayOnlyAfterRequest | ella-core/ue-phones/app/browser.go:59-126 | relaying starts only after the encoding of exactly the destination that was dialled |
| Socks.AnsweredExactly | ella-core/ue-phones/app/browser.go:81-126 | after a no-authentication greeting the client gets a ten-byte reply exactly when a complete CONNECT request to an IPv4 or domain address follows, and nothing otherwise |
| Socks.OtherCommandsGetNoReply | ella-core/ue-phones/app/browser.go:81-84 | a complete request with another command, BIND and UDP ASSOCIATE included, gets no reply |
| Socks.OtherAddressesGetNoReply | ella-core/ue-phones/app/browser.go:86-105 | a complete CONNECT request with another address type, IPv6 included, gets no reply |
| Socks.AnswersStand | ella-core/ue-phones/app/browser.go:59-126 | with more input the server writes what it wrote and perhaps more, and every answer but hanging up stands |
| Socks.PreRelayBytes | ella-core/ue-phones/app/browser.go:77-126 | before relaying the server has written nothing, 05 FF, 05 00, or 05 00 and one ten-byte reply, and in which case each |
| Socks.ReplyReads | ella-core/ue-phones/app/browser.go:112-126 | an independent decoder of RFC 1928 section 6 reads every reply as ten bytes with its code, address 0.0.0.0 and port 0 |
| Socks.Connection.ReadFull | ella-core/ue-phones/app/browser.go:63-108 | reads exactly the requested bytes at the position, or fails |
| Socks.ServeHello | ella-core/ue-phones/app/browser.go:62-69 | reads the greeting and the methods it announces |
| Socks.ServeHost | ella-core/ue-phones/app/browser.go:85-105 | reads an IPv4 or domain host, nothing else |
| Socks.ServeRequest | ella-core/ue-phones/app/browser.go:81-110 | reads the request up to and including the port |
| Socks.Serve | ella-core/ue-phones/app/browser.go:59-126 | the step-by-step reader with its early exits writes and decides what the specification says, and stops reading where relaying starts |
| Supervisor.OneGenerationAlive | ella-core/ella-simulator/files/supervisor.py:104-109 | in any run, processes of two generations are never alive together |
| Supervisor.Loop.PollInv | ella-core/ella-simulator/files/supervisor.py:96-117 | a poll raises the generation by one exactly when it launches; a poll that leaves the simulator ready saw an active Core, enough addresses and every child alive, and, unless the last launch raised, one child for each command; a poll that fails in any of its four ways leaves it not ready |
| Supervisor.ChildrenSurvive | ella-core/ella-simulator/files/supervisor.py:102-117 | live children survive any run of healthy polls of the same target separated by at most two consecutive failures, unless addresses are missing after 120 s |
| Supervisor.ThreeFailuresStop | ella-core/ella-simulator/files/supervisor.py:113-115 | three failures in a row, with time passing and processes exiting between them, stop every child and clear the target, and so it stays until the Core is active again |
| Supervisor.LossRelaunches | ella-core/ella-simulator/files/supervisor.py:103-109 | an active Core that is not the recorded target, or an exited child, relaunches at that poll |
| Supervisor.LaunchesExactly | ella-core/ella-simulator/files/supervisor.py:102-106 | a poll starts a new generation exactly when the Core is ready and not a mere follower, and it is not the recorded one, or a child exited, or there are children and the addresses were read, none was there, and the last launch is over 120 s past |
| Supervisor.LostSessionRelaunches | ella-core/ella-simulator/files/supervisor.py:104 | with the same active Core and all children alive, exactly when no address was there for over 120 s |
| Supervisor.LaunchReplaces | ella-core/ella-simulator/files/supervisor.py:105-109 | a launch leaves no earlier process alive, starts the commands it gets to as children of the new generation, and records target and time |
| Supervisor.QuietPollKeeps | ella-core/ella-simulator/files/supervisor.py:102-115 | a poll that launches nothing keeps children, target and launch time, unless it is the third failure in a row or a later one |
| Supervisor.ReadyExactly | ella-core/ella-simulator/files/supervisor.py:110-116 | a poll leaves the simulator ready exactly when the Core was active, nothing failed on the way, enough addresses were read and every child was alive |
| Supervisor.IdleLaunchesExactly | ella-core/ella-simulator/files/supervisor.py:103-109 | without children a poll launches exactly when it finds an active Core that is not the recorded target |
| Supervisor.FailedLaunchIsFinal | ella-core/ella-simulator/files/supervisor.py:103-109 | a launch that raises before any process started is never repeated: while every active Core seen is the same, no process and no new generation follows, however long the run |
| Supervisor.RaisedLaunch | ella-core/ella-simulator/files/supervisor.py:103-116 | a launch that raises before any process started records its target and leaves no child |
| Supervisor.ReadyWithoutProcessesExactly | ella-core/ella-simulator/files/supervisor.py:103-116 | after any run, a poll leaves the simulator ready without a process exactly when the last launch, against the active Core it sees, raised before starting anything and enough addresses are configured |
| Supervisor.ReadyLacksProcessesExactly | ella-core/ella-simulator/files/supervisor.py:103-116 | after any run, a poll leaves it ready with fewer processes than commands exactly when it has no reason to launch, addresses suffice, no child has exited, and the last launch, against the same Core, raised having started that few |
| Supervisor.ReadyWithoutProcesses | ella-core/ella-simulator/files/supervisor.py:103-116 | two polls from the start that end ready without a process |
| Supervisor.RunInv | ella-core/ella-simulator/files/supervisor.py:96-118 | the invariant holds after any run |
| Supervisor.SupervisorLoop.StopChildren | ella-core/ella-simulator/files/supervisor.py:72-79 | the two loops leave no child alive and forget them all |
| Supervisor.SupervisorLoop.Relaunch | ella-core/ella-simulator/files/supervisor.py:105-109 | stops, records the target, raises the generation and starts commands until one raises |
| Supervisor.SupervisorLoop.Leave | ella-core/ella-simulator/files/supervisor.py:117-118 | leaving the loop stops every child for good |
| Supervisor.SupervisorLoop.PollOnce | ella-core/ella-simulator/files/supervisor.py:97-116 | one iteration with its exceptions performs the transition the theorems are about |
| RunnerMetrics.CarriedIsGrowth | images/ueransim-wasm-runner/app.py:117-136 | for samples with an increasing clock, unrounded rate times elapsed time sums to eight times the byte growth since the first sample exactly when the counter never went back, and to more otherwise |
| RunnerMetrics.RateIsZero | images/ueransim-wasm-runner/app.py:128-136 | no rate is shown at the first sample, without time passing, or after the counter went back |
| RunnerMetrics.Sampler.Throughput | images/ueransim-wasm-runner/app.py:117-136 | the two rates and the sample kept, also when the counters cannot be read |
| RunnerMetrics.FormatBitrate | images/ueransim-wasm-runner/app.py:107-114 | the loop finds a unit and value whose product is the rate, below 1000 except in the largest unit and at least 1 except in the smallest |
| RunnerMetrics.ScaledIsUnique | images/ueransim-wasm-runner/app.py:107-114 | at most one unit and value satisfy that |
| RunnerMetrics.OneScenarioRuns | images/ueransim-wasm-runner/app.py:758-778 | under any interleaving of requests at most one scenario runs, a further request is refused exactly while one does, and progress exists only while it runs and is what the download has received |
| RunnerMetrics.RunsEndAndBegin | images/ueransim-wasm-runner/app.py:758-778 | a request that finds nothing running is let in without progress, one that finds a run changes nothing, and the end of a run lets the next one in |
| RunnerMetrics.RunLock.Enter | images/ueransim-wasm-runner/app.py:758-763 | admission and the state after it |
| RunnerMetrics.RunLock.Download | images/ueransim-wasm-runner/app.py:393-407 | the loop publishes the running total, skipping empty chunks |
| RunnerMetrics.RunLock.Leave | images/ueransim-wasm-runner/app.py:776-778 | the state is idle without progress |

## Left out

- HTML parsing: the readers are given an arbitrary tree, so the branches for a parser error (browse.go lines 155 and 205) are not modelled, and neither are strings with invalid UTF-8.
- References: parsing a link, resolving it against the page and the public-address check are one arbitrary partial function, `resolve`.
- golang.org/x/net/html is not part of this model; its escaping is taken to replace the six characters `&`, `'`, `<`, `>`, `"` and carriage return.
- The rest of browse.go: fetching, redirects, cookies, response limits.
- ViewerConnection: a re-entrant `onState`, a `disconnect()` that throws, an exception after the RFB object was created, the texts passed to `onState`, and the real clock; a due timer may fire arbitrarily late except in the liveness result, where time does not pass a due timer.
- QfiFallback: the text form of flows. Priorities, matches and actions are records, so the substring comparison of priorities and ports in awk, hexadecimal or masked QFI text, flow counters and timeouts are not captured; the two priorities are distinct and the fallback is lower. What feeds the subscriber list (line 169) is an arbitrary list of addresses.
- The UPF association step and the logging of the same loop.
- Bootstrap: waiting. Every request is answered, readiness and voting membership are always reached, and a request retried by `until` has the effect of one.
- Bootstrap: server-side refusals other than a second subscriber with the same identity, and changes made to the configuration by others during a run. The subscriber step outside `Bootstrap.Session.Enrol` therefore assumes that the page lists every subscriber.
- Bootstrap: display names come with the placeholders already substituted, addresses already looked up, request bodies as opaque strings; the SMSC and Diameter tables are listed in id order; a join token that was issued and not used is not part of the configuration.
- SmsLedger: the contents of a submission report, timestamps, the event log; whether another process confirms a tracked message is an arbitrary answer, so its time and sender comparison is not modelled. Trackers poll any number of times.
- Calls in server.go: that state lives in an external call object.
- RtpSource: the UDP and GTP-U encapsulation, flow lookup and the receive counters; a tick only says whether the stream is usable and the send succeeds.
- Socks: timeouts, the relay itself, and failed writes of replies, which the code ignores too.
- Supervisor: building the process configuration, `select_n2_address`, the health endpoint, the choice between interrupt and kill, and exceptions other than the four the loop catches.
- RunnerMetrics: rounding and number formatting, so a value just under 1000 that prints as 1000 is not excluded; samples of several interfaces mixed in one sampler; the scenarios, WebAssembly and its fuel; the derived fields of the progress record.
- Helm templates and values, the lab identities and address plans, pages and scripts of the user interfaces, Dockerfiles, node preparation, and the HTTP proxy image: constants, markup or short checks.
