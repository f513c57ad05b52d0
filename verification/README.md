# The Cypherpunk VPN client: protocols and algorithms

This project models the event-driven core of the Cypherpunk VPN client, a C++ daemon with an
Electron front end, and proves what every run of it keeps.

* **The VPN connection** (`ConnectionProtocol`, `ConnectionRuns`, `ConnectionPromises`, `Connection`): nine states, an
  OpenVPN process that comes and goes, an attempt counter, two timers and posted callbacks. Each
  handler is one function on the state of the connection; the class performs the same handlers field
  by field and is proved equal to them. Runs interleave user calls, management lines, process exits,
  timers and posted callbacks in any order.
* **The connection and its process** (`Supervision`): both together, and when a process is told to end.
* **The daemon** (`Json`, `DaemonProtocol`, `DaemonRuns`, `DaemonPromises`, `DaemonLog`, `Daemon`): websocket clients,
  coalesced notifications, the killswitch, the user's intention to be connected, and the staged
  shutdown, composed with the connection.
* **Replication** (`Mirror`, `Replication`): the copies of the daemon's data in the main process and in
  the page of a window, with every message under way, lost sockets and reloaded windows.
* **Transports and queues** (`Rpc.dfy`, `RpcPromises`, `Management.dfy`, `Analytics.dfy`): the reconnecting JSON-RPC
  transport, the one-write-at-a-time management channel, and the batching of analytics hits.
* **Algorithms** (`CommandLine`, `WinPath`, `Version`, `VersionPrecedence`, `ToNumber`,
  `VersionAgreement`, `Checksum`, `ChildMapping`): each loop is a method proved against a specification, and the specification is
  connected to an independent reference: Microsoft's parsing of command lines, what a file system makes
  of a path, section 11 of Semantic Versioning 2.0.0, RFC 1071, and order preservation.

A protocol module has a value type for the whole state, one function per handler, `CanHappen` for what
the surroundings may do, and `RunAll` (or `Run`, `Play`) for runs of any length. Theorems speak of all
runs from the initial state. Classes carry `View()`, the value of their fields; every method says
what the new view is, and `Turn` performs any event and keeps the invariant of all runs.

The modules named `Promises`, and single lemmas elsewhere, say what the operations do in terms of the
calls, the stored values and the numbers in the source alone, without the helper functions by which the
operations are defined: intervals, limits, flags, messages and texts are written out.

Where the code does not do what its names, comments or neighbours suggest, the exact condition is
proved instead:

* `DISCONNECTED` does not mean that no process runs: `DisconnectedKeepsProcess` says of every step into
  it exactly when a process stays alive, `DisconnectedWithProcess` gives a run, and
  `StaleCallbackLaunches` says exactly when a callback posted before a disconnect launches one more
  process after it.
* A shutdown call does not mean that the process is told: `Supervision.SigtermExactly` says exactly when
  it is, and `Supervision.EarlyReconnectIsLost` gives runs in which a demanded reconnect is lost.
* Microsoft's parser gives back every argument list, but the program name only if it has no blank and no
  quote (`CommandLine.RoundTrip`).
* Removing `..` textually keeps the place a path leads to exactly if, since the last time both forms were
  at the root, no `..` was spent on an empty or `.` segment (`WinPath.SamePlaceExactly`).
* `compareVersions` announces semver.org ordering (client/src/util.js:176-191), but unary plus takes texts
  such as `1e3` for numbers and rounds numbers from 2^53 on. For every set of numbers and identifiers
  `VersionAgreement.PrecedenceExactly` says exactly whether the comparison is SemVer precedence on all
  versions built from them, by a condition on pairs of texts, and `VocabularyExactly` gives the short form.
* The 32-bit checksum is right for every packet of up to 65537 words and wrong beyond
  (`Checksum.StoredSumsToOnes` has the exact condition).
* The merge of child mappings keeps the previous order only if both mappings agree on their common keys
  (`ChildMapping.PrevOrderKept`).

`dafny verify dfyconfig.toml` checks everything.

## Model

| member | source | states |
|---|---|---|
| Connection.Connection.SetOpenVPNState | daemon/connection.cpp:283-368 | a state reported by the process changes the connection as the protocol's `SetOpenVPNState` says, with the wake-up scheduled before the state changes |
| Connection.Connection.Connect | daemon/connection.cpp:541-573 | new state, wake-up and result in every state, forced or not |
| Connection.Connection.Disconnect | daemon/connection.cpp:575-589 | new state and the signal to the process in every state |
| Connection.Connection.DoConnect | daemon/connection.cpp:591-647 | when a launch happens, and the counter, timers and reports it leaves |
| Connection.Connection.Turn | daemon/connection.cpp:203-707 | every call and every turn of the event loop does to the fields what the protocol says and keeps the invariant: a wake-up outside DISCONNECTED, a process while CONNECTED or DISCONNECTING, the timer 1 or 30 seconds after the last launch |
| ConnectionRuns.StepKeepsInv | daemon/connection.cpp:203-707 | every handler keeps the whole invariant of the connection |
| ConnectionRuns.NeverStuck | daemon/connection.cpp:283-707 | over every run: outside DISCONNECTED there is a process, a posted DoConnect or an armed interval timer |
| ConnectionRuns.Recovers | daemon/connection.cpp:326-368 | from every reachable state at most three turns of the event loop launch a process again, or end DISCONNECTING |
| ConnectionRuns.ProcessLifetime | daemon/connection.cpp:453-460 | over every run: launches minus handled exits is 0 or 1, the owned process is the last launched, and the reported states fit it |
| ConnectionRuns.ProcessNeverReplaced | daemon/connection.cpp:618-627 | an owned process is given up only when it exits, and then for none |
| ConnectionRuns.RetrySpacing | daemon/connection.cpp:441-451 | over every run: an armed interval timer expires exactly 1 or 30 seconds after the last launch |
| ConnectionRuns.RetryBudget | daemon/connection.cpp:310-317 | over every run: in CONNECTING and RECONNECTING the counter is at most 50, or at most the number of RECONNECTING reports |
| ConnectionRuns.PhaseOrder | daemon/connection.cpp:283-368 | over every run: each report of a reconnecting state follows a report of CONNECTED with nothing but reconnecting states between |
| ConnectionRuns.DisconnectedKeepsProcess | daemon/connection.cpp:212-232 | exactly which steps into DISCONNECTED leave a process alive: a disconnect while a process is owned, and a state line by which the owned process itself reports EXITED |
| ConnectionRuns.DisconnectOutcome | daemon/connection.cpp:575-589 | the state, process, counter and signal that a disconnect call leaves, by what the process has reported |
| ConnectionRuns.DisconnectedWithProcess | daemon/connection.cpp:575-587 | a run that ends in DISCONNECTED with a process just launched |
| ConnectionRuns.StaleCallbackLaunches | daemon/connection.cpp:599-627 | a DoConnect posted before a disconnect launches a process after it exactly when none was owned |
| ConnectionPromises.ExitTriesAgain | daemon/connection.cpp:326-360 | after an exit the next attempt comes 30 seconds after the last launch from the STILL states and one second after it from the other trying states, at once if that has passed; for every state the next state and whether anything is posted |
| ConnectionPromises.TimerOverRuns | daemon/connection.cpp:441-451 | over every run: in CONNECTING and RECONNECTING an armed timer is exactly one second after the last launch, and only the four trying states have one |
| ConnectionPromises.LaunchOutcome | daemon/connection.cpp:618-647 | the report, number, times and state a launch leaves, slow from the 51st attempt on |
| ConnectionPromises.AttemptStartsOver | daemon/connection.cpp:591-617 | which attempts count from one again, and which do nothing |
| ConnectionPromises.ConnectedReport | daemon/connection.cpp:283-309 | a process that connects ends the counting, or is told to shut down if nobody wants it any more |
| ConnectionPromises.ErrorOutcome | daemon/connection.cpp:393-417 | every error is reported, and a critical one tells the process or posts an attempt |
| ConnectionPromises.ConnectRefusedExactly | daemon/connection.cpp:541-573 | exactly when a connect call is refused |
| ConnectionPromises.ConnectCallOutcome | daemon/connection.cpp:541-573 | what an accepted call does to state, process and callbacks, and that a refused one does nothing |
| Supervision.DoKeepsInv | daemon/connection.cpp:618-706 | every step of the connection or of its process's channel keeps both invariants, and the channel has been asked to shut down as often as the connection asked |
| Supervision.SigtermExactly | daemon/openvpn.cpp:128-144 | over every joint run: a handler issues the SIGTERM command exactly when it makes the first shutdown call and the process has connected by then, and kills exactly when it makes a later one |
| Supervision.ReplacedIsTold | daemon/connection.cpp:552-558 | over every joint run: a process to be replaced was told to shut down, and killed for every further call |
| Supervision.EarlyReconnectIsLost | daemon/connection.cpp:545-558 | from any idle connection, a run in which a demanded reconnect before the process has connected reaches nobody, and the connection ends CONNECTED with the old process |
| Json.UniqueText | client/src/daemon.js:20-32 | two JSON values have the same JSON.stringify text if and only if they are equal |
| Daemon.CypherDaemon.Set | daemon/json.h:65-66 | a declared member refuses a value of another kind and then nothing changes; every other value is stored and pending |
| Daemon.CypherDaemon.NotifyChanges | daemon/daemon.cpp:471-513 | all pending members go to all clients at once, pings and the firewall follow |
| Daemon.CypherDaemon.SendToAllClients | daemon/daemon.cpp:274-278 | the message is appended for each connected client and no other |
| Daemon.CypherDaemon.ApplyFirewallSettings | daemon/posix/posix_daemon.cpp:87-112 | the anchors are what clients, mode, intention, allowLAN and overrideDNS call for |
| Daemon.CypherDaemon.OnClientOpen | daemon/daemon.cpp:289-306 | a new client is admitted and its log starts with the whole data |
| Daemon.CypherDaemon.OnClientClose | daemon/daemon.cpp:313-333 | a client leaves, and the last one ends intention, connection and, while exiting, the wait |
| Daemon.CypherDaemon.DoShutdown | daemon/daemon.cpp:194-228 | one stage of the shutdown |
| Daemon.CypherDaemon.RpcSetAccount | daemon/daemon.cpp:584-600 | the loop over the items sets all of them after undeclared members are erased, and tells everybody |
| Daemon.CypherDaemon.RpcApplyConfig | daemon/daemon.cpp:602-620 | the loop sets exactly the items that differ, and tells everybody |
| Daemon.CypherDaemon.RpcApplySettings | daemon/daemon.cpp:622-658 | the same for settings, with the reconnect warning raised when wanted |
| Daemon.CypherDaemon.RpcResetSettings | daemon/daemon.cpp:660-664 | every declared setting but the location returns to its default, and everybody is told |
| Daemon.CypherDaemon.RpcConnect | daemon/daemon.cpp:666-709 | the location is noted, the intention set, the connection called, the warning withdrawn, everybody told |
| Daemon.CypherDaemon.Turn | daemon/daemon.cpp:184-726 | every websocket event, remote call, posted callback and connection event does to the fields what the protocol says and keeps the invariant: the firewall fields are the wanted ones while no notification is scheduled, a pending change has its notification, the intention fits the connection, a shutdown has its next step coming |
| DaemonRuns.HappenKeepsInv | daemon/daemon.cpp:184-726 | every handler keeps the whole invariant of daemon and connection together |
| DaemonRuns.KillswitchFollows | daemon/daemon.cpp:471-513 | over every run: the applied firewall is the one the data call for whenever no notification is scheduled, and otherwise unless a change of one of its inputs is still pending |
| DaemonRuns.NotificationNeverLost | daemon/daemon.cpp:429-468 | over every run: a pending change has its notification in the queue |
| DaemonRuns.ClientsToldEverything | daemon/daemon.cpp:471-566 | over every run: replaying what a client was sent gives the daemon's value of every member that is not pending, except the byte counts |
| DaemonRuns.IntentionAgrees | daemon/daemon.cpp:230-245 | over every run: while the daemon serves, the intention to be connected excludes DISCONNECTED and DISCONNECTING, and needs a client |
| DaemonRuns.ConnectCallIntends | daemon/daemon.cpp:692-709 | a connect call leaves the intention set whatever the connection reports on the way |
| DaemonRuns.ShutdownNeverLost | daemon/daemon.cpp:184-245 | over every run: a shutdown under way has DoShutdown posted, a client to wait for, or a connection that is DISCONNECTING; the loop stops only with no client and a DISCONNECTED connection |
| DaemonRuns.EndOfWaitPosts | daemon/daemon.cpp:313-333 | the end of either wait posts DoShutdown |
| DaemonRuns.ShutdownCompletes | daemon/daemon.cpp:194-245 | from every reachable state of a shutdown, closing clients, the exiting process and posted calls stop the loop |
| DaemonPromises.KillswitchFitsSettings | daemon/posix/posix_daemon.cpp:87-112 | over every run, unless a change of one of them has its notification still to come: the killswitch is on exactly if a client is connected and the stored mode is "on", or "auto" and the user means to be connected, and then LAN and DNS are exempted and blocked exactly if allowLAN and overrideDNS are stored as true |
| DaemonPromises.LastClientEnds | daemon/daemon.cpp:313-333 | the last client's leaving withdraws the intention; while the daemon serves the connection becomes DISCONNECTED or DISCONNECTING, and a process not yet exiting is told once more; while it exits the next stage is posted |
| DaemonPromises.OtherClientLeaves | daemon/daemon.cpp:81-90 | any other client's leaving changes nothing else |
| DaemonPromises.DisconnectCallEnds | daemon/daemon.cpp:712-726 | a disconnect call withdraws the intention and tells the connection in the same way |
| DaemonPromises.ShutdownStages | daemon/daemon.cpp:194-228 | a stage tells the connection if it is not DISCONNECTED, and otherwise stops the loop exactly if no client is left |
| DaemonPromises.ConnectCallOutcome | daemon/daemon.cpp:666-709 | exactly when the daemon refuses a connect call, and that any other leaves the connection connecting and tells a running process to make room |
| DaemonPromises.StoppedIsDisengaged | daemon/daemon.cpp:194-228 | over every run: when the event loop has stopped the killswitch is off |
| DaemonPromises.SettingsStored | daemon/daemon.cpp:622-658 | every item of the declared kind is stored and nothing else changes; the warning is raised exactly if a process runs with other settings and no item suppresses it |
| DaemonPromises.AccountStored | daemon/daemon.cpp:584-600 | undeclared members of the account, and only they, are erased before the items are stored |
| DaemonPromises.SettingsReset | daemon/daemon.cpp:660-664 | the firewall settings get their first values, and location, configuration and account stay |
| DaemonPromises.RecentLocations | daemon/daemon.cpp:666-691 | the location comes first and once, the others in their order, three in all |
| DaemonPromises.ErrorTold | daemon/daemon.cpp:263-287 | an error reaches exactly the connected clients, as it was reported |
| DaemonPromises.StateChangeHeard | daemon/daemon.cpp:230-245 | while the daemon serves a change is told and the end withdraws the intention; while it exits the end posts the next stage and nothing else |
| DaemonPromises.Greeting | daemon/daemon.cpp:289-306 | a new client's first message has the version, all four tables and every member held |
| DaemonPromises.AnswerOutcome | daemon/daemon.cpp:569-582 | an answer has exactly the tables asked for, complete, and goes to the asker alone |
| DaemonPromises.PingsStart | daemon/daemon.cpp:471-513 | pings start with the first client and with news of locations or of the connection's end |
| DaemonLog.HappenGrows | daemon/daemon.cpp:268-278 | over any handler the log of what a client was sent only grows |
| Mirror.FilterIsSound | client/src/daemon.js:20-32 | filtering drops exactly the members already held, so applying the rest gives the same copy |
| Mirror.MainProcess.Filter | client/src/daemon.js:20-32 | the loop that deletes from the delta leaves exactly the members that differ |
| Mirror.MainProcess.OnPost | client/src/daemon.js:140-194 | handshake, version check, copy and what is passed on to the window |
| Mirror.RendererProcess.OnPost | client/src/web/daemon.js:55-80 | the copy takes over the delta whole, and the delta keeps what was new |
| Mirror.RendererProcess.GoUp | client/src/web/daemon.js:82-91 | applying the data as a whole and then table by table is applying it once |
| Replication.MoveKeeps | client/src/daemon.js:140-194 | every step of daemon, socket, main process and page keeps the chain in step |
| Replication.StartKeeps | client/src/web/daemon.js:111-116 | messages sent before a page asked for the data cannot set its copy back |
| Replication.MirrorsConverge | client/src/web/daemon.js:55-91 | over every run: once everything under way has arrived, both copies agree with the daemon on every member it holds but the byte counts |
| Replication.EverythingArrives | client/src/daemon.js:140-194 | from every reachable state with the application online, handling posted notifications and messages alone brings everything to both copies |
| Replication.HandshakeOutcome | client/src/daemon.js:140-171 | until the whole data arrives nothing happens; then the same version opens, tells the window and takes over the data, and any other changes nothing but that the client is done |
| Replication.OnlySameVersionOpens | client/src/daemon.js:150-158 | over every run: an open client has the daemon's version |
| Replication.OtherVersionRefused | client/src/daemon.js:150-158 | a first message of another version ends the connection, with copy and window left alone |
| Replication.RefusedForGood | client/src/daemon.js:150-158 | over every run from then on: closed, and the copy as it was |
| Replication.WindowToldTheTruth | client/src/web/daemon.js:82-116 | over every run: a window was told last whether the daemon is up, and a running page is up or has that news still to read |
| Rpc.WebSocketImpl.Send | client/src/rpc.js:217-245 | id, callback and order of a request, sent at once, queued or refused |
| Rpc.WebSocketImpl.OnOpen | client/src/rpc.js:31-37 | the loop transmits the whole queue in order and empties it |
| Rpc.WebSocketImpl.OnResponse | client/src/rpc.js:121-134 | the callback of the named id is removed and fired, and no other |
| Rpc.WebSocketImpl.Turn | client/src/rpc.js:15-245 | every call and every socket event does to the fields what the protocol says and keeps the invariant: nothing is queued on an open socket, a closed one has its timer, nothing is left after disconnect |
| RpcProtocol.HappenKeepsInv | client/src/rpc.js:15-245 | every event keeps the whole invariant of the transport |
| RpcProtocol.TransmittedInOrder | client/src/rpc.js:217-245 | over every run: transmitted requests are a prefix of the issued ones, and until disconnect the queue is the rest |
| RpcProtocol.FiredOnce | client/src/rpc.js:121-134 | over every run: each id fires at most once, and the callback it was issued with |
| RpcProtocol.AnswerFires | client/src/rpc.js:121-134 | over every run: until disconnect the first response to a transmitted call fires its callback; no other response fires any |
| RpcProtocol.OneSocketOneTimeout | client/src/rpc.js:156-173 | over every run: all sockets but the newest are closing or closed, and at most one timeout is armed |
| RpcProtocol.NewSocketAfterLast | client/src/rpc.js:162-170 | a socket is created only by the timeout, when the last one is closing or closed |
| RpcProtocol.QuietAfterDisconnect | client/src/rpc.js:178-196 | after disconnect no socket, no transmission and no answer, in any run |
| RpcProtocol.NeverStuckOffline | client/src/rpc.js:140-173 | from every reachable state before disconnect at most three events put everything issued onto the wire |
| RpcPromises.WishesFulfilled | client/src/rpc.js:217-245 | over every run: what is transmitted, queued and dropped are the texts passed to send before the first disconnect, in order; those with a callback have the ids 1, 2, 3 and so on, each with its own callback |
| RpcPromises.LateCallsRefused | client/src/rpc.js:178-196 | over every run: exactly the calls made after the first disconnect are refused |
| RpcPromises.FiredAsAsked | client/src/rpc.js:121-134 | over every run: a callback fires only for the id it was sent with, and an id fires once |
| Management.OpenVPNProcess.RunPosted | daemon/openvpn.cpp:35-73 | what each posted callback does, and when it starts a write |
| Management.OpenVPNProcess.HandleManagementWrite | daemon/openvpn.cpp:76-88 | a finished write takes the text off the queue and starts the next |
| Management.OpenVPNProcess.Shutdown | daemon/openvpn.cpp:128-144 | the first call asks the process if it is connected, every further one kills it |
| Management.OpenVPNProcess.Turn | daemon/openvpn.cpp:31-144 | every call, posted callback and finished operation does to the fields what the protocol says and keeps the invariant: at most the front of the queue is being written, and on a working socket it is |
| ManagementProtocol.HappenKeepsInv | daemon/openvpn.cpp:31-144 | every event keeps: one write pending at most, its buffer is the front of the queue, and on a working socket a non-empty queue is being written |
| ManagementProtocol.WrittenInOrder | daemon/openvpn.cpp:31-88 | over every run: what was written is a prefix of what was issued, the queue and the posted texts are the rest, and at most the front of the queue is being written |
| ManagementProtocol.NeverStalls | daemon/openvpn.cpp:63-88 | over every run: once accepted, on an open socket without a write error, a non-empty queue is being written |
| ManagementProtocol.NewlinesComeFirst | daemon/openvpn.cpp:35-36 | when the interface is started first, the newlines are written first |
| ManagementProtocol.EverythingIsWritten | daemon/openvpn.cpp:63-88 | on a working channel everything issued is written, with the number of turns it takes |
| ManagementProtocol.FailureIsFinal | daemon/openvpn.cpp:76-88 | after a write error nothing is ever written again |
| ManagementProtocol.EarlyShutdownKills | daemon/openvpn.cpp:128-144 | a shutdown before the process has connected is not passed on, and the next one kills |
| ManagementProtocol.WrittenAsDemanded | daemon/openvpn.cpp:31-144 | over every run: what was written, queued and posted are the texts that the calls ask for, in order, the first shutdown of a connected process among them; every shutdown call but the first kills |
| ManagementProtocol.OpenOnceConnected | daemon/openvpn.cpp:35-61 | over every run without a stop call the socket is open exactly once the process has connected |
| Analytics.AnalyticsQueue.ProcessQueue | client/src/web/analytics.js:38-60 | the first hits of the queue, one to twenty, leave in one request, and the timers fit the rest |
| Analytics.AnalyticsQueue.SendInternal | client/src/web/analytics.js:77-104 | all objects of a nested payload are queued in order, and the timers fit the queue |
| Analytics.AnalyticsQueue.Report | client/src/web/analytics.js:144-159 | nothing is taken up while disabled |
| AnalyticsProtocol.RunKeepsInv | client/src/web/analytics.js:38-135 | over every run: short timer exactly from 20 hits on, long timer exactly for 1 to 19, every hit in order in exactly one batch or still queued, batches of one to twenty hits and of one identity |
| AnalyticsProtocol.SettledOnce | client/src/web/analytics.js:44-51 | over every run: a batch keeps its hits, and its outcome is decided once |
| AnalyticsProtocol.SilentWhileDisabled | client/src/web/analytics.js:127-135 | over every run without activation: nothing is taken up and nothing is sent |
| AnalyticsProtocol.TimersDrain | client/src/web/analytics.js:55-59 | left alone, the timers empty the queue in as few batches as possible |
| AnalyticsProtocol.NothingLost | client/src/web/analytics.js:77-135 | over every run: what left and what still waits are the objects reported while enabled, however nested, in order and once, each with the identity of its time |
| AnalyticsProtocol.TimersFit | client/src/web/analytics.js:38-60 | over every run: twenty hits and more wait for the short timer and one to nineteen for the long one, and no request has more than twenty |
| AnalyticsProtocol.BatchTaken | client/src/web/analytics.js:38-75 | a timer takes the first twenty hits or all, being turned off gives up all, and nothing else takes any |
| CommandLine.AppendQuoted | daemon/win/win_subprocess.h:201-240 | the loop appends the quoted form of the argument |
| CommandLine.BuildCommandLine | daemon/win/win_subprocess.h:59-73 | the loop joins the file name of the program and the quoted arguments |
| CommandLine.QuotedReadBack | daemon/win/win_subprocess.h:212-236 | a quoted argument is read back by Microsoft's rules, whatever it contains |
| CommandLine.TailReadBack | daemon/win/win_subprocess.h:68-73 | every list of arguments, joined after a program name, is read back |
| CommandLine.RoundTrip | daemon/win/win_subprocess.h:59-73 | the started program gets its name and exactly the arguments if and only if the name has no blank and no quote, and is not empty when there are arguments |
| CommandLine.LeftAloneExactly | daemon/win/win_subprocess.h:201-211 | exactly the arguments that are not empty and have no blank, tab, line end or quote are left as they are |
| CommandLine.ProgramIsFileName | daemon/win/win_subprocess.h:59-67 | the program is named by what follows the last slash or backslash of its path |
| WinPath.SimplifyPath | daemon/win/win_path.cpp:18-39 | for every string the loop ends, moving on by at least three each time, and computes the path with each ".." taking back the segment before it |
| WinPath.SimplifiedIsTidy | daemon/win/win_path.cpp:18-39 | the result has no ".." except possibly first, keeps the root, and is simplified already |
| WinPath.LeftAloneExactly | daemon/win/win_path.cpp:18-39 | exactly the paths with no ".." after the first segment are left as they are |
| WinPath.InSteps | daemon/win/win_path.cpp:18-39 | simplifying a beginning of the path first makes no difference |
| WinPath.ParentTakesBack | daemon/win/win_path.cpp:24-36 | a name followed by ".." vanishes with it |
| WinPath.SamePlaceExactly | daemon/win/win_path.cpp:18-39 | a path leads to the same place after simplifying if and only if both forms are at the root at some point and no ".." from there on is spent on an empty or "." segment above the root |
| WinPath.SamePlaceAlong | daemon/win/win_path.cpp:24-36 | the path and all its beginnings do, if and only if no ".." at all is spent so |
| WinPath.SamePlace | daemon/win/win_path.cpp:18-39 | a path without empty and "." segments leads to the same place after simplifying |
| WinPath.DotChangesPlace | daemon/win/win_path.cpp:24-36 | a family of paths with a "." segment whose place changes |
| Version.SplitVersion | client/src/util.js:162-174 | major, minor, patch, prerelease identifiers and build, with zero for what is missing |
| Version.CompareVersions | client/src/util.js:193-233 | the loop computes `Compare`, in every branch |
| Version.Antisymmetric | client/src/util.js:187 | swapping the versions negates the result |
| Version.Transitive | client/src/util.js:193-233 | "not newer" is transitive, and equal only along equal versions: a total preorder |
| Version.Magnitude | client/src/util.js:179-186 | the result is zero, or one more than the first differing index with a sign |
| Version.EarlierDifferenceDecides | client/src/util.js:179-186 | of two comparisons with a common version the one with the smaller magnitude decides the third, and equal versions can replace each other |
| Version.BuildIgnored | client/src/util.js:189-191 | build metadata plays no role, for any version text before it |
| VersionPrecedence.ReadBack | client/src/util.js:162-174 | splitting the text of a valid version gives back its numbers and identifiers |
| VersionPrecedence.MissingIsZero | client/src/util.js:162-174 | a missing minor or patch number compares as 0, and what follows the third number plays no role |
| VersionPrecedence.AgreesWithPrecedence | client/src/util.js:176-233 | two valid versions compare as the standard asks if the texts in the same places do, whatever unary plus is |
| VersionPrecedence.AgreesExactly | client/src/util.js:176-233 | on all versions over given numbers and identifiers the comparison is SemVer precedence if and only if it orders every two of the numbers and every two of the identifiers as the standard does |
| ToNumber.SmallIsExact | client/src/util.js:206-210 | unary plus reads digits below 2^53 exactly |
| ToNumber.DoubleMonotone | client/src/util.js:206-210 | rounding to double precision never reverses an order |
| ToNumber.FirstInexact | client/src/util.js:206-210 | 2^53 and 2^53 + 1 become the same number |
| VersionAgreement.CompatibleExactly | client/src/util.js:206-224 | with JavaScript's unary plus, exactly which two texts are ordered as the standard orders them |
| VersionAgreement.PrecedenceExactly | client/src/util.js:176-233 | on all versions over given numbers and identifiers, compareVersions is SemVer precedence if and only if they are compatible with each other |
| VersionAgreement.VocabularyExactly | client/src/util.js:206-224 | identifiers that include 0 and - are compatible if and only if no text is a literal such as 1e3, 0x10, -1 or Infinity and no two numbers round to one double |
| VersionAgreement.SafeVersionsAgree | client/src/util.js:176-233 | two valid versions without such literals and without numbers of 2^53 and more compare as the standard asks |
| VersionAgreement.ExponentMisread | client/src/util.js:206-210 | 1.0.0-1e3 and 1.0.0-2000 come out the wrong way |
| VersionAgreement.LiteralsMisread | client/src/util.js:206-210 | 1.0.0-9e0 and 1.0.0-10e0 come out the wrong way |
| VersionAgreement.RoundedNumbersMisread | client/src/util.js:206-210 | versions that differ in an identifier of 2^53 and 2^53 + 1 come out equal |
| Checksum.Compute | daemon/ping.h:172-177 | the loop in wrapping 32-bit arithmetic and the two folds compute the complement of the one's-complement sum of the wrapped sum |
| Checksum.StoredSumsToOnes | daemon/ping.h:172-177 | storing the value makes the packet's one's-complement sum 0xFFFF if and only if the carries lost beyond 32 bits number a multiple of 0xFFFF |
| Checksum.ShortPacketsSumToOnes | daemon/ping.h:172-177 | it does for every packet of up to 65537 words |
| Checksum.OneWordAltered | daemon/ping.h:172-177 | a receiver misses a single altered word exactly when all zeros and all ones were swapped |
| Checksum.BuildRequest | daemon/ping.h:164-177 | the 40 bytes of the request, with a correct checksum |
| ChildMapping.MergeChildMappings | client/src/web/components/Transition.js:58-96 | the loops build the merged order, with the values of next wherever it has the key |
| ChildMapping.OrderDistinct | client/src/web/components/Transition.js:79-96 | the merged order has no duplicates |
| ChildMapping.OrderIsUnion | client/src/web/components/Transition.js:79-96 | it has exactly the keys of both mappings |
| ChildMapping.NextOrderKept | client/src/web/components/Transition.js:79-96 | it always keeps the order of the next mapping |
| ChildMapping.StaysInFrontOf | client/src/web/components/Transition.js:65-96 | keys that next lacks stay together right in front of the key of next they came before, or last |
| ChildMapping.PrevOrderKept | client/src/web/components/Transition.js:65-78 | it keeps the previous order if and only if both mappings list their common keys in the same order |

## Left out

Of the connection and the daemon:
- Sockets, processes, timers and the event loop are events that run one handler at a time; posted callbacks of the connection and the daemon may run in any order, which covers the order they are posted in.
- An interval timer that has expired but whose handler has not run yet counts as a posted callback, so no cancel reaches it.
- The text of management lines other than the state, the exit description and the error codes; a line is an event with what was read from it.
- The comparison of the settings in force with the current ones is a parameter (`mismatch`, `changed`).
- How long the slow connection timer waits; it may fire at any time, and also when cancelled, because the handler does not look at the error code.
- Failing launches, missing credentials and other exceptions thrown out of a handler.
- Connection.Connection.DoConnect: the arguments and the profile of the OpenVPN process, daemon/connection.cpp:649-706, are not part of this model.
- Daemon.CypherDaemon.ApplyFirewallSettings: anchors are booleans for both systems; the Windows filters other than DNS blocking, and the failure paths of daemon/win, are not part of this model.
- Daemon.CypherDaemon.RpcConnect: the time stamp is a parameter, and missing credentials are taken to be present.
- Daemon.CypherDaemon.RpcApplyConfig: a member that is not held is taken to differ from every value, since the comparison is in jsonrpc-lean, which is not part of this model.
- DaemonPromises.SettingsStored: the items have different keys, as the members of a JSON object held in a map do; likewise DaemonPromises.AccountStored.
- ConnectionPromises.LaunchOutcome: the attempt counter has not reached its 32-bit limit, at which the protocol's counter wraps.
- Replies to remote calls, the text of error messages, files written by `WriteToDisk`, and the STARTING phase before the websocket server runs.
- Ping rounds: which servers are pinged and what the statistics say; only that the statistics are marked and told.
- DaemonRuns.ClientsToldEverything: the byte counts are excepted, because leaving CONNECTED changes them without raising BYTECOUNT, daemon/daemon.cpp:548-560; erased members stay in the copies, because erasing does not notify, daemon/settings.cpp:88-99.
- Calls of `RequestShutdown` from another thread, and `_to_notify.state` before it is first set; it is taken to be 0.

Of the client:
- Replication.MirrorsConverge: one client application and one window at a time; the deprecated per-table notifications, which the daemon does not send, are not modelled; a number is its own text, so 0 and -0 are one value.
- The comparison of versions in debug builds, client/src/daemon.js:150, and the windows, listeners and loaders of Electron.
- Replies to calls made by the daemon (client/src/rpc.js:41-51), which share the socket; only requests and posts of the client are counted as transmitted. An open handler that itself sends is not modelled; the one in client/src/daemon.js:110-112 does not.
- Response ids that name inherited members of an object, such as `constructor`, count as naming no call.
- AnalyticsProtocol.RunKeepsInv: the time stamps and the other parameters of a hit, the requests themselves, and the promise that a list of payloads gets as a whole.
- Version.CompareVersions: the conversion of text to a number is a parameter; `ToNumber` defines it for texts without blanks, plus signs and points, which the pieces of a valid version are, rounding exactly also where engines may stop after twenty digits. Strings are ordered by characters, which differs from JavaScript's code units only beyond the Basic Multilingual Plane.
- ChildMapping.MergeChildMappings: missing mappings count as empty ones, and keys that are array indices, which JavaScript lists first, are not modelled.

Of the system code:
- CommandLine.BuildCommandLine: conversion between narrow and wide characters, and the third parameter of the quoting function, which no caller passes.
- Management.OpenVPNProcess.RunPosted: posted callbacks run in the order they were posted; closing a socket that is not open, which throws, does not happen, and the object outlives its callbacks.
- Profile text, certificates, logging, installers, tray, autostart, React rendering and the code in client/semantic.
