# Verified models of lonesome-js

lonesome-js is a proxy that can be driven from JavaScript: it routes requests by CEL rules to TCP,
Unix-socket and in-process ("virtual JS") upstreams, and manages certificates, error pages and its
own life cycle at run time. This project models the parts of it whose correctness rests on the order
of steps, on an abstraction or on a data-structure invariant, and proves what they promise. All of it
is checked with `dafny verify dfyconfig.toml`.

**Virtual listeners and sockets** (`Registry*`, `SocketStream`, `SocketState`, `StreamHistory`,
`ReadWakeup`, `ConnIds`). Connects, pushes, reads, writes, shutdowns, unregistrations and clean-up
race over a listener map, per-listener maps of weak references, a global socket table and per-socket
read states, with no lock held across an operation. `Registry` is a step system: any number of threads,
each with a program counter, where a step is one lock region, one atomic access or one table call. The
invariant (`RegistryInvariant`) is proved inductive over every step, and `RegistryTheorems` draws the
promises from it for every schedule. `RegistryAlone` runs the operations one at a time, as methods that
take the same steps in their order, and says what each whole operation does (`RegistryForms` has the
closed forms); `RegistryStreams` follows each socket's bytes and flags over every schedule. The read side
of a socket is also a class over its queue of chunks that refines a byte stream. The waker protocol is a
step system of its own for one socket (`ReadWakeup`), and joined with the registry for all of them
(`RegistryWakeup`, `RegistryNoHang`).

**Route rules** (`Precheck`, `CelRules`, `RuleMeaning`, `CelErrors`, `RuleAnalysis`). The pre-check
abstracts a CEL expression to a three-valued tree. It is exact as an abstraction, and it does not change
which route matches: an early "no" never loses a match, whatever the unanalysed parts do, and an early
"yes" is right whenever they give booleans. `CelErrors` finds the exact condition under which it is right
also when they fail. `RuleMeaning` reads off the expression what a rule says and proves that the matcher
follows it.

**Server life cycle** (`Lifecycle`, `Restart`, `StopCalls`). Any number of concurrent start, stop and
status calls over a mutex, two flags and a thread that must be joined; what every stop leaves, and when
the server can be started again.

**Tables and names** (`Listing`, `Sorting`, `FirstOccurrence`, `RouteTable`, `ErrorPages`,
`StatusSpec`, `Text`, `HostNames`, `CertStore`, `AuthorityGate`). The sorted copy-on-write tables, the
status-spec parser against a grammar, the certificate store as one map, and the gate between TLS SNI,
`:authority` and `Host`.

**Upstreams** (`LoadBalancing`, `PassiveHealth`, `PeerSelection`). Backend identity independent of
configuration order, passive health as a summary of history, health-gated selection and bounded retry.

Where code and documentation differ, or a natural property fails, the model follows the code:

- `stop()` never lowers its flag when the server thread has already dropped its end of the shutdown
  channel, so the server cannot be started again (`Restart.FlagStaysUpIff`, `FailedSendIsFinal`; a run
  that gets there is `Restart.SendCanFail`).
- With the policy that rewrites the authority, an SNI that is a valid header value but no valid authority
  replaces the Host header alone (`AuthorityGate.HalfRewritten`).
- `x ? true : true` is answered "true" early although the program may fail in `x`; the exact condition
  is `CelErrors.FastPathExactIff`, the concrete rule `CelErrors.UnknownConditionCanMislead`.
- A connect whose future is dropped while it waits for the open callback leaves its table entry behind
  (`RegistryForms.CancelledConnectStays`).
- A certificate lookup for `.example.com` uses the wildcard `*.example.com`, which `host_matches`
  refuses; the exact condition under which the lookup gives the most specific covering pattern is
  `CertStore.LookupIsMostSpecificIff`.
- Error pages of one priority are in order of their last update, not of first insertion: updating an
  entry moves it behind its peers (`ErrorPages.RunLists`).
- A status spec also accepts a leading `+` and leading zeros (`Text.ParsesExactlyNumerals`).
- `poll_read` reports an end or a pending stream correctly only for buffers that start empty and have
  room (`StreamHistory.EmptyReadIsSoundIff`).
- With two endpoints of one address and weight but different settings, the order of the configuration
  decides which one serves (`LoadBalancing.OtherwiseOrderShows`).

## Model

| member | source | states |
|---|---|---|
| RegistryRuns.StepKeeps | src/virtual_js/registry_store.rs:39-187 | Every atomic step of every thread, whatever the callback answers, keeps the registry's invariant |
| RegistryRuns.RunKeeps | src/virtual_js/registry_store.rs:39-187 | So does every interleaving of any number of operations |
| RegistryTheorems.OrphansAreOwed | src/virtual_js/registry_store.rs:78-103 | In every interleaving a table entry of an inactive listener is owed to a deactivation that has not drained or still holds it, or to an `init_connect` before its re-check |
| RegistryTheorems.QuiescentTablesAgree | src/virtual_js/registry_types.rs:47-80 | With nothing in flight each listener's connections are exactly its table entries, and an inactive listener has none |
| RegistryTheorems.PublishedAreActive | src/virtual_js/registry_store.rs:39-76 | A published listener is active and stored under its own key |
| RegistryTheorems.RegistrationLastsIff | src/virtual_js/registry_store.rs:130-148 | Over every later schedule a registration lasts if and only if no step unregisters its key or begins a deactivation of that very instance; a stale instance's deactivation spares a newer one |
| RegistryTheorems.IdsAreNeverReused | src/virtual_js/registry_store.rs:161-164 | The id drawn next, under any key, was never drawn before |
| RegistryTheorems.InsertNeverOverwrites | src/virtual_js/registry_store.rs:166-176 | A table insert never meets an existing entry |
| ConnIds.ConnIdInjective | src/virtual_js/registry_store.rs:161-164 | An id determines its key and its number, even for keys that look like ids |
| RegistrySteps.DrawnIdIsNew | src/virtual_js/registry_store.rs:161-164 | No socket state carries the id a listener would draw now |
| RegistryTheorems.FinishedIsDead | src/virtual_js/registry_store.rs:178-187 | When no deactivation of an inactive instance is still at work, nothing is attached to it and nobody holds one of its sockets unsettled |
| RegistryTheorems.DeadForever | src/virtual_js/registry_types.rs:47-61 | That stays so under every later schedule, new registrations of the key included |
| RegistryTheorems.DeactivationIsFinal | src/virtual_js/registry_store.rs:178-187 | After a finished deactivation, for ever: each handed-out socket of the instance not shut down locally answers every read at once, and none is reusable |
| RegistryTheorems.WritesFailAfterwards | src/virtual_js/registry.rs:19-44 | Once an instance is inactive, no write on its sockets that was not already past the check ever reaches the callback |
| RegistryAlone.SoloRegistry.RegisterListener | src/virtual_js/registry_store.rs:39-54 | Succeeds exactly for a free key and adds one fresh active listener, nothing else |
| RegistryAlone.SoloRegistry.UnregisterListener | src/virtual_js/registry_store.rs:56-76 | Run alone it takes out the key, exactly its listener's table entries and connections, aborts exactly its attached sockets, and ends with the tables in agreement |
| RegistryAlone.SoloRegistry.DeactivateListener | src/virtual_js/registry_store.rs:178-187 | The loop over the drained connections ends, with every one aborted and detached and nothing else changed |
| RegistryAlone.SoloRegistry.InitConnect | src/virtual_js/registry_store.rs:78-103 | Succeeds exactly for an active listener, with the new state attached and inserted; otherwise changes nothing |
| RegistryAlone.SoloRegistry.ConnectTo | src/virtual_js/registry_connect.rs:38-70 | Hands out a new socket exactly when the listener is active and the callback accepts; a failed connect leaves both tables as they were; a closed callback deactivates that very instance, the new connection included |
| RegistryAlone.SoloRegistry.PushEvent | src/virtual_js/registry_api.rs:35-72 | An unknown socket is refused; data is appended exactly on an open, live stream; eof ends and an error is recorded on an open socket, and both detach it in any case; no other socket changes |
| RegistryAlone.SoloRegistry.WriteTo | src/virtual_js/socket.rs:193-208 | Broken pipe exactly on a closed socket, else an error on an inactive listener, else the callback's answer; nothing changes unless the callback is closed, which deactivates the socket's listener |
| RegistryAlone.SoloRegistry.ShutDown | src/virtual_js/socket.rs:214-221 | The socket is closed whatever follows; it is detached if its listener is inactive or takes the news, its listener is deactivated if the callback is closed, and only another failure is reported |
| RegistryAlone.SoloRegistry.DeactivateSocketListener | src/virtual_js/registry_store.rs:150-159 | Deactivates the listener of the socket's table entry, if it still has one |
| RegistryForms.TurnIs | src/virtual_js/registry_store.rs:178-187 | The five atomic steps of one turn of the loop together abort the socket and remove its entry and weak reference |
| RegistryForms.CancelledConnectStays | src/virtual_js/registry_connect.rs:42-50 | A connect dropped while it waits for the open callback leaves its table entry and weak reference behind, with no socket handed out |
| RegistryStreams.BytesAreConserved | src/virtual_js/registry_api.rs:42-49 | Over every schedule and for every socket, the bytes its reads took followed by those unread are, in order, the bytes of the data pushes that found the stream neither ended nor failed |
| RegistryStreams.PushLands | src/virtual_js/registry_api.rs:35-72 | A push that holds the lock appends to a live stream, ends it or records exactly its message, on the socket it names and on no other |
| RegistryStreams.EndIsFinal | src/virtual_js/socket.rs:70-98 | An end or an error stays under every schedule |
| RegistryStreams.ClosedIff | src/virtual_js/socket.rs:154-186 | Over every schedule a socket is closed if and only if it was aborted, shut down, or read into an error or, with an empty buffer, into the end |
| RegistryStreams.ClosedIsFinal | src/virtual_js/socket.rs:193-231 | From then on, under every schedule, it is not reusable and no write that was not already past its closed check gets past it |
| RegistryStreams.ReadToTheEndCloses | src/virtual_js/socket.rs:179-186 | In particular after a read that met the end or an error |
| RegistryStreams.InactiveHandsOutNothing | src/virtual_js/registry_connect.rs:58-69 | A connect that has not passed its last check when its listener goes inactive never hands its socket out |
| RegistryStreams.DroppedIsGone | src/virtual_js/registry_connect.rs:68-69 | A dropped socket is never handed out, read, written or shut down again |
| SocketState.VirtualJsSocketState.PushData | src/virtual_js/socket.rs:46-68 | Data is accepted exactly when neither closed nor ended nor failed, and is then appended to the stream |
| SocketState.VirtualJsSocketState.PushEof | src/virtual_js/socket.rs:70-83 | Ends the stream unless closed, keeping its bytes |
| SocketState.VirtualJsSocketState.PushError | src/virtual_js/socket.rs:85-98 | Records the error unless closed |
| SocketState.VirtualJsSocketState.Abort | src/virtual_js/socket.rs:100-110 | Closes, and records its reason unless the stream already ended or failed |
| SocketState.VirtualJsSocketState.CopyOut | src/virtual_js/socket.rs:159-177 | The copy loop conserves bytes: buffer followed by queue never changes; it stops only with a full buffer or an empty queue |
| SocketState.VirtualJsSocketState.PollRead | src/virtual_js/socket.rs:142-189 | An error is reported at once and closes; otherwise exactly the next bytes that fit move, an empty result is pending or, after eof, the end, and the end closes the socket |
| SocketState.RoundConserves | src/virtual_js/socket.rs:164-176 | One round of the copy loop, with the front chunk put back or dropped, conserves the bytes |
| StreamHistory.BytesAreConserved | src/virtual_js/socket.rs:46-83 | Over every history, delivered bytes followed by pending ones equal the accepted pushes in order |
| StreamHistory.ClosedIff | src/virtual_js/socket.rs:154-186 | After any history the socket is closed if and only if it was aborted, or some read met an error, or some read into an empty buffer moved nothing after eof |
| StreamHistory.Replay | src/virtual_js/socket.rs:46-189 | The class makes every call exactly as the history says, bytes accepted and delivered included |
| StreamHistory.EndIsFinal | src/virtual_js/socket.rs:46-98 | After eof or an error nothing is accepted any more |
| StreamHistory.EmptyReadIsTheEnd | src/virtual_js/socket.rs:179-186 | An empty successful read means eof with every accepted byte delivered |
| StreamHistory.EmptyReadIsSoundIff | src/virtual_js/socket.rs:159-186 | Reading it so is sound exactly for buffers that start empty and have room |
| StreamHistory.PendingIffNothing | src/virtual_js/socket.rs:142-189 | A read is pending exactly when there is neither a byte nor eof nor an error |
| StreamHistory.ReadsDrain | src/virtual_js/socket.rs:159-177 | As many reads of any positive sizes as there are bytes drain the stream |
| ReadWakeup.NoLostWakeup | src/virtual_js/socket.rs:142-189 | In every interleaving a parked reader with something to read was notified or has a pusher between its change and its wake |
| ReadWakeup.ChangeIsSeen | src/virtual_js/socket.rs:46-110 | What each push or abort leaves in the stream, and which of them wake |
| ReadWakeup.PendingWakesSuffice | src/virtual_js/socket.rs:46-110 | Once the pushers in progress have woken, such a reader has been notified |
| ReadWakeup.ParkedReaderIsServed | src/virtual_js/socket.rs:142-189 | And its next poll, with a buffer of any positive size, answers instead of parking again |
| RegistryWakeup.NoSocketLosesAWakeup | src/virtual_js/socket.rs:46-110 | The same for all sockets at once, in every interleaving of all registry operations, their wakes and the readers |
| RegistryNoHang.NobodyHangsOnADeadListener | src/virtual_js/registry_store.rs:178-187 | Once an instance's deactivation has finished, for ever after: a reader parked on one of its sockets not shut down locally has been notified |
| RegistryNoHang.HangReachable | src/virtual_js/socket.rs:100-110 | In every interleaving a reader nobody has woken sits on a socket that is shut down, or held by a deactivation that will wake it, or open and attached with every thread that is about to detach it still owing the wake |
| Precheck.EvalIsExact | src/matcher/precheck/expr.rs:21-61 | The verdict is True, False or Unknown exactly when all, none, or some but not all assignments to the unknown leaves make the tree true |
| Precheck.DecidedForAll | src/matcher/precheck/expr.rs:149-161 | A decided verdict is the value under every assignment |
| Precheck.CompleteIsDecided | src/matcher/precheck/expr.rs:113-126 | A tree without unknown leaves is always decided |
| Precheck.VerdictFollowsLeaves | src/matcher/precheck/expr.rs:128-161 | Requests that agree on the leaves get the same verdict |
| CelRules.VerdictIsNeverContradicted | src/matcher/precheck/cel.rs:47-101 | For every expression and every behaviour of the unanalysed parts the program never yields the boolean opposite to the verdict |
| CelRules.FalseVerdictIsFaithful | src/matcher/matcher.rs:34-40 | A False verdict implies that the full program does not match, errors and non-booleans included |
| CelRules.BooleanGapsGiveVerdict | src/matcher/precheck/cel.rs:47-101 | If the unanalysed parts give booleans, a decided verdict is the program's value |
| CelRules.FastPathPreservesMatching | src/matcher/matcher.rs:31-53 | Then the matcher with its fast path matches exactly when the program alone does |
| RuleMeaning.PathRule | src/matcher/precheck/cel.rs:21-27 | `Path(v)` matches exactly the path v, for every operator set and every behaviour of unanalysed parts |
| RuleMeaning.PathPrefixRule | src/matcher/precheck/cel.rs:21-27 | `PathPrefix(v)` matches exactly the paths v followed by something |
| RuleMeaning.HostRule | src/matcher/precheck/cel.rs:21-27 | `Host(v)` without a wildcard matches exactly the host v |
| RuleMeaning.WildcardHostRule | src/matcher/precheck/cel.rs:21-27 | `Host("*.base")` matches exactly a non-empty dot-free label before `.base` |
| RuleMeaning.MatcherFollowsRule | src/matcher/matcher.rs:31-53 | A rule made of checks, boolean literals and operators matches exactly the requests it speaks of, by a meaning read off the expression |
| RuleMeaning.CompleteIffCheckable | src/matcher/precheck/cel.rs:47-101 | These are exactly the rules whose tree is complete |
| RuleMeaning.LeavesAreWritten | src/matcher/precheck/expr.rs:128-147 | The tree's leaves are the checks in the order in which the rule is written |
| CelErrors.FastPathExactIff | src/matcher/matcher.rs:31-53 | Under standard CEL operators the fast path agrees with the program for every behaviour of the unanalysed parts if and only if the verdict does not rest on a conditional with unknown condition |
| CelErrors.StrictIsCertain | src/matcher/precheck/expr.rs:49-61 | A verdict that does not rest on such a conditional is the program's value whatever fails |
| CelErrors.UnknownConditionCanMislead | src/matcher/precheck/expr.rs:49-61 | The rule `x ? true : true` with failing `x`: early match, no match by the program |
| CelErrors.StandardTolerates | src/matcher/matcher.rs:42-52 | Under the operators of the CEL standard, where a deciding operand absorbs an error, no behaviour of the unanalysed parts contradicts a verdict |
| CelErrors.EagerTolerates | src/matcher/matcher.rs:42-52 | Nor does it under operators that give up on an error of the left operand |
| RuleAnalysis.Analyze | src/matcher/precheck/cel.rs:141-169 | The lists hold exactly the literals of the rule's checks of each kind, each once, in the order in which they are first written; the flag says exactly whether the rule is made of nothing else |
| RuleAnalysis.ReportIsUnique | src/matcher/precheck/cel.rs:141-169 | There is only one such report |
| RuleAnalysis.ReportedChecksDecide | src/matcher/precheck/cel.rs:141-163 | Requests that agree on every reported check get the same verdict |
| RuleAnalysis.FullyPrecheckableIsDecided | src/matcher/precheck/cel.rs:141-163 | A rule reported fully pre-checkable is decided for every request, as it says |
| Lifecycle.StepKeeps | src/bindings/server.rs:63-84 | Every step of any call or of the server thread keeps the life-cycle invariant |
| Lifecycle.OneServerThread | src/server/server.rs:155-191 | In every interleaving at most one server thread is not joined |
| Lifecycle.RuntimeExcludesStopping | src/bindings/server.rs:134-149 | A stored runtime and a raised stopping flag never coexist, and a stored runtime's thread is not joined |
| Lifecycle.PhaseFollows | src/bindings/server.rs:63-149 | The phase moves only round the cycle never started, running, stopping, stopped, running |
| Lifecycle.ReportIsPhase | src/bindings/server.rs:174-185 | A status call, which reads three things at three moments, answers the phase of the moment it answers |
| Restart.FlagStaysUpIff | src/bindings/server.rs:144-147 | After any run, with no call in progress, the stopping flag is up if and only if some send of the run found its thread's receiver gone |
| Restart.StartSucceedsIff | src/bindings/server.rs:63-84 | Between calls a start succeeds exactly when no runtime is stored, no send of the run failed and the thread can be spawned; otherwise it changes nothing; it returns |
| Restart.StopWaitsOrReturns | src/bindings/server.rs:144-148 | Under every later schedule a stop past its send waits, or returns with its thread joined: flag down and free to start if the send succeeded, flag up if it failed |
| Restart.WaitingIsSound | src/bindings/server.rs:144-148 | While it waits nothing wedges, no runtime is stored and no other call has a thread in hand |
| Restart.StopReturns | src/bindings/server.rs:144-148 | It returns within any four rounds in which its thread and itself each get a turn, whatever else is mixed in |
| StopCalls.StopGetsItsSignalOut | src/server/server.rs:155-161 | With no call in progress and a listening thread in the slot, a stop has sent after four turns of its own, whatever else happens, if its thread listens that long |
| StopCalls.StopCompletes | src/bindings/server.rs:134-149 | And within four rounds more it has returned: thread joined, flag down, free to start |
| StopCalls.RestartWorks | src/bindings/server.rs:63-149 | A concrete start, stop, start run ends with a second thread in the slot and the flag down |
| StopCalls.LockIsGivenBack | src/bindings/server.rs:63-185 | Under every schedule nobody is inside the lock for five turns of its own |
| StopCalls.StatusAnswersOnReturn | src/bindings/server.rs:174-185 | A status call answers exactly at the turn at which it returns, and changes nothing |
| StopCalls.StatusAlone | src/bindings/server.rs:174-185 | Between calls a status call answers the phase and leaves everything as it was |
| StopCalls.StopOfNothing | src/bindings/server.rs:134-138 | With nothing stored a stop returns at once and changes nothing |
| Restart.FailedSendIsFinal | src/bindings/server.rs:144-147 | After a failed send, under every later schedule, the flag stays up, no runtime is stored and no thread is ever spawned again |
| Restart.SendCanFail | src/server/server.rs:155-161 | A concrete run gets there: every call has returned and the thread is joined, yet the flag is up |
| RouteTable.RunLists | src/route/route_table.rs:14-34 | After any run of upserts and removes the table lists exactly the routes the last operations put, strictly by priority descending, then id |
| RouteTable.ListingIsUnique | src/route/route_table.rs:24-24 | A map of routes has one such listing |
| RouteTable.OrderOfDistinctIdsIsIrrelevant | src/route/route_table.rs:14-34 | Runs that end every id alike build the same table |
| RouteTable.DistinctIdsCommute | src/route/route_table.rs:14-34 | Neighbouring operations on different ids commute anywhere in a run |
| RouteTable.LessIsTotal | src/route/route_table.rs:24-24 | String order is total and antisymmetric |
| RouteTable.LessMeans | src/route/route_table.rs:24-24 | The smaller string is a proper prefix or has the smaller character at the first difference |
| RouteTable.FindFirstMatch | src/route/route_table.rs:36-47 | Returns the first matching route of the table, or none if none matches |
| RouteTable.SharedRouteTable.UpsertRoute | src/route/route_table.rs:74-78 | The new snapshot lists the old map with the route put under its id |
| RouteTable.SharedRouteTable.RemoveRoute | src/route/route_table.rs:80-85 | The new snapshot lists the old map without the id, and the answer says whether it was there |
| RouteTable.SharedRouteTable.FirstMatch | src/route/route_table.rs:36-47 | Of all registered routes that match none has a higher priority, and of equal priority none has an id that is a proper prefix or smaller at the first difference |
| Sorting.SortElements | src/route/route_table.rs:24-24 | Sorting permutes |
| Sorting.SortAscends | src/route/route_table.rs:24-24 | Sorting pairwise comparable elements gives strict order |
| ErrorPages.RunLists | src/server/error_page_store.rs:196-217 | After any run of updates and removes the table is the listing, by priority descending and then by time of last update, of what was last put under each id |
| ErrorPages.ListingIsUnique | src/server/error_page_store.rs:199-204 | That listing is unique |
| ErrorPages.IdsDiffer | src/server/error_page_store.rs:199-204 | Ids are unique in the table |
| ErrorPages.SortLands | src/server/error_page_store.rs:200-203 | The stable sort by priority alone puts a pushed entry at the end of its priority and moves nothing else |
| ErrorPages.ErrorPageStore.UpdatePage | src/server/error_page_store.rs:196-206 | A valid page is put under its id as the most recent; an invalid one changes nothing |
| ErrorPages.ErrorPageStore.RemovePage | src/server/error_page_store.rs:208-217 | Removes the id and says whether it was there |
| ErrorPages.ProxyCtx.LookupErrorPage | src/proxy/response.rs:145-168 | Matchers see the status being served, and of all pages that apply none has a higher priority, nor the same priority and an earlier last update |
| StatusSpec.ParseStatusSpec | src/server/error_page_store.rs:46-100 | A blank spec is empty; otherwise either every segment is admissible and the codes of all ranges are listed once in order of first mention, or the fault of the first bad segment is returned |
| StatusSpec.AcceptedIff | src/server/error_page_store.rs:46-100 | A non-blank spec is accepted if and only if every segment denotes, in the grammar, a code or non-reversed range within 400..599 |
| StatusSpec.AcceptedCodes | src/server/error_page_store.rs:87-96 | The codes are then duplicate-free and exactly the union of the ranges |
| StatusSpec.SpanMeans | src/server/error_page_store.rs:52-85 | Trimming, splitting at the first hyphen and trimming again reads a segment exactly as the grammar does |
| StatusSpec.ParsesOnce | src/server/error_page_store.rs:46-100 | The answer, errors included, is determined by the spec |
| StatusSpec.RoundTrip | src/server/error_page_store.rs:46-100 | Parsing the comma-joined rendering of any non-empty list of distinct error statuses returns the list |
| StatusSpec.PaddedCode | src/server/error_page_store.rs:53-85 | A code between blanks names itself |
| StatusSpec.HyphenRange | src/server/error_page_store.rs:60-79 | Two codes with a hyphen between them name all from the first to the second |
| Text.SplitJoin | src/server/error_page_store.rs:52-52 | Splitting undoes joining when no part holds the separator |
| Text.JoinSplit | src/server/error_page_store.rs:52-52 | Joining undoes splitting, and no part holds the separator |
| Text.ParsesExactlyNumerals | src/server/error_page_store.rs:68-84 | The number parser accepts exactly the decimal numerals up to 65535 with optional plus and leading zeros |
| HostNames.WildcardMeaning | src/matcher/cel_common.rs:35-43 | A wildcard pattern accepts exactly one non-empty dot-free label before its base |
| HostNames.HostnameEqMeaning | src/matcher/cel_session_context.rs:25-28 | Two names are equal exactly when one lowercase name with some number of dots behind it spells both |
| HostNames.CaseIsIgnored | src/matcher/cel_session_context.rs:25-28 | Changing the case of ASCII letters never changes what a name is equal to |
| HostNames.EqIgnoreCaseMeaning | src/server/cert_store.rs:156-163 | The comparison without case sees nothing but the case of ASCII letters, and does not see that |
| HostNames.HostnameEqIsEquivalence | src/matcher/cel_session_context.rs:25-28 | The comparison is an equivalence |
| CertStore.CertStore.Set | src/server/cert_store.rs:51-78 | Succeeds exactly when the material parses, a name of the certificate is the host up to ASCII case or need not be, and the wildcard is well formed; then puts it under the lowercased pattern in the one map, else changes nothing |
| CertStore.NamedMeaning | src/server/cert_store.rs:156-172 | A certificate is for a host exactly when one of its names is the host up to ASCII case |
| CertStore.FoldedHostsShareCertificate | src/server/cert_store.rs:106-119 | Hosts whose characters fold alike get the same certificate from every store |
| CertStore.AsciiSpellings | src/server/cert_store.rs:70-76 | With ASCII lowercasing a certificate set for one spelling answers every spelling |
| CertStore.CertStore.Remove | src/server/cert_store.rs:86-97 | Removes the lowercased pattern from the one map and says whether it was there |
| CertStore.CertStore.Lookup | src/server/cert_store.rs:106-119 | The three tables answer as the one map does: the host, its parent's wildcard, then `*` |
| CertStore.LookupIsMostSpecificIff | src/server/cert_store.rs:99-119 | The answer is the certificate of the most specific pattern that covers the host if and only if the host does not stray (first label empty, not stored literally, bare domain with a wildcard) or the default holds the same certificate |
| CertStore.MostSpecificIsUnique | src/server/cert_store.rs:99-119 | That certificate is determined |
| CertStore.StrayLookup | src/server/cert_store.rs:112-118 | For a straying host the wildcard is used although it does not cover the host, and the default would have been right |
| CertStore.WildcardStepIff | src/server/cert_store.rs:112-116 | The wildcard of a domain is consulted exactly for the hosts `host_matches` accepts and for the domain behind a bare dot |
| CertStore.StrayExample | src/matcher/cel_common.rs:35-43 | The concrete host `.example.com`, whose answer is not the most specific |
| AuthorityGate.StrictAcceptsIff | src/proxy/proxy.rs:611-628 | Under the strict policy a request passes if and only if its present SNI, `:authority` and Host are pairwise the same name |
| AuthorityGate.StrictStatuses | src/proxy/proxy.rs:611-628 | 400 exactly when `:authority` and Host disagree; 421 exactly when they do not but two of the names do |
| AuthorityGate.StrictRoutesBySni | src/matcher/cel_session_context.rs:169-181 | An accepted strict request is routed by a name that its SNI equals |
| AuthorityGate.CelHttpSession.Host | src/matcher/cel_session_context.rs:169-181 | A non-empty SNI under the two policies that trust it, else the URI authority's host, else the Host header up to its first colon without blanks, else nothing; also when memoised |
| AuthorityGate.RoutesOnce | src/matcher/cel_session_context.rs:169-181 | That name is determined, independent of the SNI where the policy does not trust it, and the same for all four policies without one |
| AuthorityGate.OtherPolicies | src/proxy/proxy.rs:629-639 | The rewriting policy refuses exactly a disagreement of `:authority` and Host, the loose ones nothing |
| AuthorityGate.UpstreamRequest.ForceAuthority | src/proxy/proxy.rs:645-658 | Each of the two authorities is overwritten exactly when the library accepts the value, scheme and path kept; both are the name if and only if the library takes it in both places or it stood there |
| AuthorityGate.UpstreamRequest.UpstreamRequestFilter | src/proxy/proxy.rs:232-260 | Under the rewrite policy both forwarded authorities are the SNI if and only if the library takes it in the URI the middlewares left, and always for an SNI that is a valid authority, whatever the middlewares did; the routing host is the SNI; otherwise the request is as they left it |
| AuthorityGate.HookedIsWellFormed | src/proxy/proxy.rs:242-246 | However many middlewares edit it, up to the first that fails, the request's URI still has valid parts |
| AuthorityGate.StrictHttpTakesNames | src/proxy/proxy.rs:650-657 | A library that builds no URI without a scheme meets the hypotheses, for every well-formed request and every host name |
| AuthorityGate.HalfRewritten | src/proxy/proxy.rs:645-658 | An SNI that is a header value but no authority leaves the URI with the client's name |
| LoadBalancing.BuildLoadBalancer | src/upstream/lb.rs:211-279 | Fails exactly on an unreadable address; otherwise holds each address and weight once, with the index of its first endpoint |
| LoadBalancing.IndexIsUnique | src/upstream/lb.rs:217-259 | The backend set and its indices are determined by the endpoint list |
| LoadBalancing.ReorderingIsInvisible | src/upstream/upstream.rs:383-406 | For every selector and request, any reordering of the endpoints gives the same backend set and the same selected configuration, if endpoints equal to the balancer are equal |
| LoadBalancing.DistinctAddressesSuffice | src/upstream/lb.rs:217-259 | Distinct backend addresses are enough for that |
| LoadBalancing.OtherwiseOrderShows | src/upstream/lb.rs:258-258 | And it is necessary: otherwise some reordering and some lawful selector give another configuration |
| LoadBalancing.SyntheticIdentity | src/upstream/lb.rs:172-209 | A synthetic address depends on the tagged name alone and separates two names exactly when the hash does |
| LoadBalancing.SyntheticShape | src/upstream/lb.rs:196-208 | It lies in 2001:db8::/32 with port 1, and its last eight octets read as the hash of the tagged name |
| LoadBalancing.NamesKeepApart | src/upstream/lb.rs:178-194 | If the hash keeps pairs apart, endpoints share a synthetic address exactly when they are the same Unix path or the same virtual key |
| PassiveHealth.HealthyIff | src/upstream/lb.rs:41-59 | For every history a backend is healthy at t iff the failures since its last success do not exceed that success's allowance, 0 before the first, or its last failure's window has ended |
| PassiveHealth.CountersSummarise | src/upstream/lb.rs:42-49 | The two counters are allowance minus failures since the last success, and the end of the last window |
| PassiveHealth.PassiveHealthState.ObserveBackendHealth | src/upstream/lb.rs:288-305 | An observation extends the history that the counters summarise |
| PeerSelection.FromConfig | src/upstream/upstream.rs:221-236 | Fails exactly on an unreadable address; otherwise each address and weight has one backend, with the index of its first endpoint and fresh counters of its own |
| PeerSelection.Upstream.SelectPeer | src/upstream/upstream.rs:282-344 | The peer is the configuration behind the selector's choice among all backends or, with a health check and several endpoints, among those healthy now, and is remembered; no choice is a 502 |
| PeerSelection.Upstream.HealthyByHistory | src/upstream/lb.rs:281-286 | A backend is among those healthy now exactly when its own history of observations makes it fit |
| PeerSelection.HealthCheckMiddleware.ConnectedToUpstream | src/middlewares/health_check/mod.rs:111-121 | A success is recorded against the backend used |
| PeerSelection.HealthCheckMiddleware.FailToConnect | src/middlewares/health_check/mod.rs:123-140 | The n-th failure of a request is granted a retry iff n does not exceed the configured number; each is recorded against the backend that failed |

## Left out

- The registry is a step system on values under sequential consistency: locks do not poison, the id counter stays below 2^64, object identity is an index or an id, and a connect future is cancelled only at its await.
- `notify_close_best_effort` changes no state of the registry and has no step; the blank-key check of the binding that registers listeners is not modelled.
- A socket has one reader, which polls with an initially empty buffer that has room.
- CEL parsing, cel-rust's evaluator, regular expressions and JWT: unanalysed sub-expressions are an arbitrary function to a boolean, another value or an error, and the operators are parameters with stated laws.
- Pingora's selectors, its health flag, the Ketama ring and the connection pool: selection is any function of the keys, the request and the acceptable keys.
- The hash behind synthetic addresses, the reading of socket addresses, URI building, header-value validity, PEM parsing and certificate names are parameters.
- Lowercasing is character by character with stated laws; the context rule for a final capital sigma is not modelled.
- Concurrent writers of the route, error-page and certificate stores: updates there are an unlocked load and store, modelled as called from one thread.
- PassiveHealth.HealthyIff: assumes that no window end leaves sixty-four bits and that there are fewer than 2^63 observations; relaxed atomics are modelled as one sequential history.
- PeerSelection.FromConfig: does not model the refusal of a hash-key rule that does not compile or of invalid tunables, which happens before or after the balancer is built and keeps no state.
- PeerSelection.Upstream.SelectPeer: the hash-key rule is a parameter, and translating an endpoint to a peer with its TLS and timeouts is not modelled.
- Validation and compilation of error pages apart from the status spec, and rendering of their bodies.
- Header, redirect, CORS, compression, respond, rewrite, cache, rate-limit and access-log middlewares, configuration conversion and status reports other than the life-cycle state: each is a single check or a formatting of values with no state shared between calls.
- Everything under `example/`: an application built on the proxy, made of Deno workers, timers and user interface.
