# Verification of Gratis

Gratis is a hosting control panel: a control plane (`api`) drives one agent per server
(`agent`) over a bidirectional stream. This project models the parts of it whose
guarantees span several functions or several concurrent callers, and proves them.

| file | what it models |
|---|---|
| `Messages.dfy` | stream messages; the agent's dispatcher |
| `Protocol.dfy` | the command protocol as a labelled transition system: callers, sessions, streams, agents, the registry and the pending map |
| `SessionInvariant.dfy`, `ProtocolInvariant.dfy`, `HonestInvariant.dfy` | its inductive invariant: one session, the whole system, and the part that needs agents running this code |
| `ProtocolTheorems.dfy`, `ProtocolRuns.dfy` | the protocol's guarantees over all runs; the registry over runs, an answered call and an overlap |
| `Handshake.dfy`, `Upstream.dfy` | what a stream has to show before the server answers on it, and what each verdict leads to; everything an agent sends, in order |
| `ProtocolBlocking.dfy` | exactly when a caller can never leave the enqueue |
| `ProtocolProgress.dfy` | freedom from deadlock: what a healthy session still owes a waiting call, and how it is moved |
| `ControlPlane.dfy` | the control plane's shared state as classes, each method performing exactly its steps of the transition system |
| `Text.dfy`, `Dkim.dfy`, `OpenDkim.dfy` | split, join, substring, trim and path joins; the two text edits; the OpenDKIM tables as lists of domains; PEM unwrapping |
| `Mail.dfy` | the virtual-mail tables under concurrent handlers; the manager and its maildir tree |
| `Tokens.dfy`, `TokenRuns.dfy`, `Registration.dfy` | provisioning tokens, with and without the foreign key; what a run of them comes to, told from its labels; the protocol together with the store |
| `Nginx.dfy` | vhost files and links at every point of every interleaving |
| `Dns.dfy`, `Numbers.dfy` | DNS names, contents and record updates; decimal numbers as text |
| `Cpu.dfy` | CPU usage from the kernel's text and wrapping counters |

A step of the protocol is one mutex section, one channel operation or one stream
operation. A label carries the step's nondeterminism (who acts, what is lost, what a
handler answers), so a run is a list of labels. The endless `select` loops of
`handleSession` and `session` and the reconnect loop of `Run` appear as the steps they
repeat. The eight slots of a `recv` channel and the message its reader holds while the
channel is full are one queue of nine. The stream is a pair of queues that may lose a
suffix of each at any moment; from then on nothing gets through, and a send may report an error
or, while the loss goes unnoticed, succeed and be lost. The deadline is an event that
can happen at any time after the enqueue. An agent that does not run this code is the label
`Forge`, which puts any message on the stream; results that need this repository's agents
speak of runs without it (`HonestlyReachable`), all others of every run (`Reachable`).

Assumptions, all visible as parameters or conditions of steps: command identifiers, server
identifiers and database keys are fresh when generated; token hashes are distinct;
`stream.Send` calls are atomic; database comparison is exact; external programs
(`openssl`, `doveadm`, `nginx -t`, `systemctl`) only succeed or fail.

Where the code does less than one might expect, the model keeps the code as it is and the
project proves what does hold, when exactly the stronger statement holds, and an example
where it does not:

- `unregisterAgent` deletes by server identifier, so a session that ends late removes the
  entry of the session that replaced it (`FoundThroughoutIff`, `OverlapLosesLiveSession`).
- The deadline of `SendCommand` starts after the enqueue, so a caller can be stuck for ever:
  exactly on a full queue whose session loop has been left (`StuckForEverIff`,
  `StuckCallerReachable`).
- `RemoveDKIM` removes every domain that starts with the given one (`RemovalIsExactIff`,
  `RemovalTakesMore`).
- `ValidateToken` binds a token before `UpsertServer` inserts the row the foreign key asks
  for, so with the schema as written no agent ever connects (`ForeignKeyBlocksEveryBind`,
  `NoAgentEverConnects`). Its comment speaks of refusing a used token; that branch is
  never taken (`TokensNeverShare`, and `ForeignKeyBlocksEveryBind` with the key). Without the key a token keeps one identifier exactly when
  its first uses do not overlap (`ConsistentIffSerial`, `TwoIdentifiersIff`,
  `InterleavedFirstUsesDisagree`).
- A failed config test removes a site that was already up (`RollbackRestoresIff`,
  `RollbackLosesSite`), and like a
  delete it cuts links of another name to the removed file (`EveryPointIsConsistentIff`,
  `SafeForEverIff`, `DeleteCuts`).
- `CreateAlias` reports success when its row is skipped because the domain is gone
  (`AnswersIff`, `SkippedAliasReportsSuccess`).
- A record without a priority is written exactly like one with a priority if and only if its
  text starts with a positive number and a space (`ZeroPriorityIsAmbiguousIff`,
  `ZeroPriorityIsAmbiguous`).
- A maildir is its address's own exactly when both parts are plain names (`DirsAreOwnIff`,
  `OddNamesEscape`, `SlashedNamesNest`), and a vhost file its domain's own exactly when the
  domain has no slash (`FilesAreOwn`, `SlashedNameIsShared`). What is said about isolation is
  said for such names.

## Model

| member | source | states |
|---|---|---|
| Dispatcher.Dispatch | agent/internal/rpc/dispatch.go:27-86 | every command gets one result with its own identifier, successful exactly when a handler was reached and returned nil; a failure carries the handler's error or the routing one |
| Dispatcher.DatabaseAnswers | agent/internal/rpc/dispatch.go:115-127 | a database command succeeds if and only if the database manager is there and its handler returned nil; the error otherwise |
| Dispatcher.DnsAnswers | agent/internal/rpc/dispatch.go:131-167 | the same for the four DNS commands and the DNS client |
| Dispatcher.EmailAnswers | agent/internal/rpc/dispatch.go:171-224 | the same for the six mail commands and the email manager |
| Dispatcher.HostAnswers | agent/internal/rpc/dispatch.go:31-40 | vhost, account and service commands need no module |
| Dispatcher.UnhandledAnswers | agent/internal/rpc/dispatch.go:77-84 | a certificate command or one without a payload always fails, with its error text |
| Dispatcher.OtherModulesDoNotMatter | agent/internal/rpc/dispatch.go:27-86 | the answer depends on no module but the command's own |
| ProtocolInvariant.StepKeepsInv | api/internal/grpc/server.go:95-280 | every step of server, callers, agents or network keeps the whole invariant, whatever the agents send |
| ProtocolInvariant.ReachableInv | api/internal/grpc/server.go:162-249 | the invariant holds in every state any run can reach |
| HonestInvariant.StepKeepsHonest | agent/internal/rpc/agent.go:110-159 | with agents running this code every step also keeps: one result per handed command, every result genuine, every delivery to the call it belongs to |
| HonestInvariant.GenuineResultMatches | api/internal/grpc/server.go:199-207 | a genuine result that finds a pending entry finds the call bound to the very session it arrived on |
| ProtocolTheorems.EndToEnd | api/internal/grpc/server.go:217-249 | end-to-end correlation over any honest run cut at a lookup: the returned result was computed by `Dispatch` on that call's command, at the session `agents[server]` held at the lookup; success means that handler returned nil |
| ProtocolTheorems.ReturnedResultIsOwn | agent/internal/rpc/agent.go:153-159 | in every honestly reachable state each returned result is that of the call's own command on its own session |
| ProtocolTheorems.RunAdvances | api/internal/grpc/server.go:219-235 | a call never changes server, session or payload, nor its identifier once drawn |
| ProtocolTheorems.Conservation | api/internal/grpc/server.go:226-235 | an issued command is in exactly one place of the whole system or gone; on the caller's session and no other; a filled result slot means it is nowhere else |
| ProtocolTheorems.SessionConserves | agent/internal/rpc/agent.go:114-157 | on one session, what was ever enqueued is what sits in the live places plus what was lost or settled |
| ProtocolTheorems.EnqueuedWhere | api/internal/grpc/server.go:233-235 | an enqueued command is in exactly one place, live or settled, on its own call's session and on no other |
| ProtocolTheorems.HandedAtMostOnce | agent/internal/rpc/agent.go:145-148 | no command is handed to a handler twice, on one session or on two, for any agents; it is running or executed, once |
| ProtocolTheorems.RunHandedGrows | agent/internal/rpc/agent.go:145-148 | what has been handed over is never forgotten, so at most once holds for whole runs |
| ProtocolTheorems.HandedInOrder | api/internal/grpc/server.go:171-174 | the commands handed over on a session are a prefix of those enqueued on it, in order |
| SessionInvariant.AgentKeepsOrder | agent/internal/rpc/agent.go:114-149 | each agent step keeps handed, inbox, stream, lost, held and queued commands in enqueue order |
| SessionInvariant.ServerKeepsOrder | api/internal/grpc/server.go:162-178 | the same for each server step |
| SessionInvariant.AgentKeepsBalance | agent/internal/rpc/agent.go:145-159 | each agent step keeps handed = running + results on the way + settled, for every identifier |
| ProtocolTheorems.DeliveryNeverBlocks | api/internal/grpc/server.go:199-207 | a session loop that claimed an entry can always send: the slot is empty and no other loop will use it, for agents that send anything |
| ProtocolTheorems.ChannelSentAtMostOnce | api/internal/grpc/server.go:228-231 | each result channel receives at most one send ever |
| ProtocolTheorems.ClaimIsLocal | api/internal/grpc/server.go:199-207 | handling a result for one identifier, the claim and the send after it, changes no other call, entry, channel or session |
| ProtocolTheorems.PendingIsExact | api/internal/grpc/server.go:228-247 | the keys of `pending` are exactly the identifiers of calls registered and neither claimed nor cleaned up |
| ProtocolTheorems.ReturnedLeavesNoEntry | api/internal/grpc/server.go:240-248 | a call that has returned, either way, has no entry |
| ProtocolTheorems.QuiescentIsEmpty | api/internal/grpc/server.go:228-247 | with no calls in flight `pending` is empty |
| ProtocolTheorems.BlockedOnlyAtFullQueue | api/internal/grpc/server.go:233-248 | a call in progress has no step of its own if and only if it is at the enqueue and its session's queue holds 32 messages |
| ProtocolTheorems.DeadlineFrees | api/internal/grpc/server.go:243-248 | once its deadline has fired a call can always finish, in two steps of its own |
| ProtocolProgress.WaitingCanBeAnswered | api/internal/grpc/server.go:162-248 | from any state an honest run can reach, a call waiting on a healthy session can still be answered: queues, loops and channels do not deadlock |
| ProtocolProgress.DrainedMeansDelivered | api/internal/grpc/server.go:199-207 | a call still waiting when its healthy session has nothing left to move has its result in its channel: none is lost on the way |
| ProtocolProgress.StepKeepsProgress | api/internal/grpc/server.go:192-207 | each step keeps: a sent result stays until the call returns, a claimed entry is in some loop's hands, a whole stream settles a waiting call's result only by a claim |
| ProtocolProgress.DrainStepDrains | api/internal/grpc/server.go:162-178 | moving the message nearest its end leaves the session healthy with less to move |
| ProtocolBlocking.StuckForEverIff | api/internal/grpc/server.go:233-238 | a caller at the enqueue stays there over every continuation if and only if its queue is full and its session loop has been left; otherwise agents running this code can let it through |
| ProtocolBlocking.StuckCallerReachable | api/internal/grpc/server.go:134-138 | such a caller is reachable with agents running this code |
| ProtocolTheorems.HandshakeSafety | api/internal/grpc/server.go:95-142 | the first message on a stream is the reply to the registration and tells a registered agent the identifier it is filed under; a refused stream carries nothing else, and one that was not registered, whether or not the refusal got through, is never in `agents` and never has a command queued |
| Handshake.RepliesAnswerRegistrations | api/internal/grpc/server.go:95-132 | in every reachable state nothing has gone out on a stream before a registration came in, and no acceptance before one with a token |
| Handshake.VerdictDecides | api/internal/grpc/server.go:107-142 | over every run after the verdict: a refused stream carries at most the refusal and is not closed without it unless it broke; an accepted one keeps its identifier, is told it first and is not closed unless it broke |
| SessionInvariant.AgentKeepsReceipt | agent/internal/rpc/agent.go:71-106 | what the agent received and still has to receive is a prefix of what the server sent, and no step leads to the wrong-reply branch |
| Upstream.UpstreamInOrder | api/internal/grpc/server.go:145-215 | over any run, while a stream is whole: what was settled, is in delivery, was read or is on the way is together exactly what the agent's steps sent, in order |
| Upstream.BreakLosesSuffixes | api/internal/grpc/server.go:171-188 | a break leaves any beginning of each direction and accounts for the rest |
| Upstream.OneLiveConnection | agent/internal/rpc/agent.go:45-69 | of two connections of one agent the earlier has been left and its stream closed |
| ProtocolRuns.RegistryIsSound | api/internal/grpc/server.go:137-142 | every entry is a session for that server whose unregister has not run |
| ProtocolRuns.RegistryIsExact | api/internal/grpc/server.go:269-280 | over runs without overlap `agents` is exactly the listed sessions, in both directions |
| ProtocolRuns.StepHidesIff | api/internal/grpc/server.go:275-280 | of all steps, exactly the unregister of a session while another for its server is listed hides a server that could be found |
| ProtocolRuns.FoundThroughoutIff | api/internal/grpc/server.go:137-142 | over any run, every server with a listed session can be found at every point if and only if no such unregister happens |
| ProtocolRuns.AnsweredIsReachable | api/internal/grpc/server.go:217-242 | an honest run in which a call is answered with success |
| ProtocolRuns.OverlapLosesLiveSession | api/internal/grpc/server.go:137-142 | a run in which a reconnected agent ends up missing from the registry and its next caller is refused |
| ControlPlane.Server.HandleAgentMessage | api/internal/grpc/server.go:181-215 | a result is claimed and delivered as the steps Claim and Deliver do, without blocking; a heartbeat's metrics are kept; any other message is the step TakeOther |
| ControlPlane.Server.RegisterAgent | api/internal/grpc/server.go:269-273 | the objects take exactly the step Register: the new session is the server's entry, and the state stays reachable |
| ControlPlane.Server.UnregisterAgent | api/internal/grpc/server.go:275-280 | the objects take exactly the step Unregister |
| ControlPlane.Server.LookupAgent | api/internal/grpc/server.go:219-224 | the objects take exactly the step Lookup, and the object found is that of the call's session |
| ControlPlane.Server.InsertPending | api/internal/grpc/server.go:228-231 | the objects take exactly the step Issue: a fresh channel under a fresh identifier |
| ControlPlane.Server.AbandonPending | api/internal/grpc/server.go:244-246 | the objects take exactly the step Cleanup |
| ControlPlane.Server.ClaimPending | api/internal/grpc/server.go:199-204 | the mutex section takes the entry out with its channel, as the step Claim does |
| ControlPlane.Server.DeliverResult | api/internal/grpc/server.go:205-207 | the send after it finds the channel empty, as the step Deliver does |
| ControlPlane.Server.ReceiveResult | api/internal/grpc/server.go:240-242 | the result branch returns what the step TakeResult returns |
| ControlPlane.Server.NextOutbound | api/internal/grpc/server.go:171-174 | the loop takes the oldest command, as the step TakeOutbound does |
| ControlPlane.Server.TryEnqueue | api/internal/grpc/server.go:233-235 | the send succeeds exactly when the step Enqueue is enabled, and then is that step; otherwise nothing changes |
| ProtocolTheorems.DuplicateIsDiscarded | api/internal/grpc/server.go:199-207 | of two results for one identifier the first is delivered and the second changes nothing |
| Text.SplitOfJoin | agent/internal/email/dkim.go:126-131 | splitting at a separator recovers any non-empty list of pieces free of it |
| Text.JoinOfSplit | agent/internal/email/dkim.go:126-131 | joining the pieces gives the text back |
| TableFiles.TableFile.AppendUnique | agent/internal/email/dkim.go:103-115 | appends the entry unless the text contains it; an unreadable file gets it in any case; a write that fails leaves a part of it at the end or nothing |
| TableFiles.TableFile.RemoveLines | agent/internal/email/dkim.go:117-132 | the loop rewrites the file to the lines without the marker; a missing file stays missing; a rewrite that fails leaves a beginning of the new text or the old one |
| TableFiles.AppendThenRemove | agent/internal/email/dkim.go:103-132 | append then remove restores a terminated text byte for byte if and only if no line of it contains the marker |
| TableFiles.EditsStayTerminated | agent/internal/email/dkim.go:103-132 | both edits keep a text empty or newline-terminated |
| TableFiles.RemovalIsIdempotent | agent/internal/email/dkim.go:117-132 | removing twice is removing once |
| TableFiles.AppendIsIdempotent | agent/internal/email/dkim.go:103-115 | appending twice is appending once |
| TableFiles.KeptCounts | agent/internal/email/dkim.go:117-132 | every line without the marker stays as often as it was there, every other line goes |
| OpenDkim.MarkerInLine | agent/internal/email/dkim.go:80-85 | the marker of `d` occurs in the line of `e` if and only if `d` is a prefix of `e`, in both tables |
| OpenDkim.SubstringTestIsLineTest | agent/internal/email/dkim.go:103-107 | the substring test for an entry equals membership of its whole line |
| OpenDkim.TableRefinesList | agent/internal/email/dkim.go:51-85 | over every run of operations that may fail before either table, each table is exactly the printed entries of one duplicate-free domain list; tables that cannot be read or are written in part are outside such runs |
| OpenDkim.ListedIff | agent/internal/email/dkim.go:51-85 | over the same runs a domain is listed in a table if and only if the last operation that touched the table and bears on the domain was its setup |
| OpenDkim.TablesAgreeOn | agent/internal/email/dkim.go:51-85 | the tables agree on a domain when the last operation bearing on it and touching either reached both |
| OpenDkim.TablesAgree | agent/internal/email/dkim.go:51-85 | over every failure-free run both tables list the same domains |
| OpenDkim.RemovalIsExactIff | agent/internal/email/dkim.go:80-85 | a removal removes just that domain if and only if it is not a proper prefix of another listed one |
| OpenDkim.RemovalTakesMore | agent/internal/email/dkim.go:80-85 | removing "a.co" also removes "a.com" |
| OpenDkim.SetupThenRemove | agent/internal/email/dkim.go:51-85 | setup then remove restores a terminated table exactly when no line contains the domain's marker |
| OpenDkim.OpenDkimConfig.SetupDKIM | agent/internal/email/dkim.go:19-70 | what each table holds after every outcome of reading and writing it; without a partial write or an unreadable table, the edit specified as far as it got; the TXT value carries the unwrapped key and is returned only if both were updated, and then both tables hold a line that reads back as the domain's |
| OpenDkim.OpenDkimConfig.RemoveDKIM | agent/internal/email/dkim.go:73-89 | what each table holds after every outcome of reading and writing it; without a partial write, the edit specified as far as it got |
| OpenDkim.LineReadsBack | agent/internal/email/dkim.go:51-59 | split at its spaces and colons, the line of a domain gives back the address pattern or domain, the selector, the key name and the path of the private key |
| OpenDkim.ReadsIsLine | agent/internal/email/dkim.go:51-59 | no other line does |
| OpenDkim.TextReadsIff | agent/internal/email/dkim.go:51-85 | over every run, a table's text has a line that reads back as a domain's if and only if the last operation bearing on the domain was its setup |
| Pem.StripPemHeaders | agent/internal/email/dkim.go:91-101 | the loop computes the concatenation of the trimmed lines that are not blank and not fences |
| Pem.UnwrapInvertsWrap | agent/internal/email/dkim.go:91-101 | for every chunking, fencing and padding of a base64 body, unwrapping returns the body |
| Pem.KeyFileUnwraps | agent/internal/email/dkim.go:91-101 | a key file as openssl writes it, with either line ending, unwraps to its base64 text |
| MailTables.SplitIsExact | agent/internal/email/manager.go:186-192 | the split succeeds with these parts if and only if they spell the address, cut at its first "@" |
| MailInterleavings.StepKeepsInv | agent/internal/email/manager.go:34-55 | every statement of every handler keeps keys and referential integrity |
| MailInterleavings.EveryInterleavingKeepsIntegrity | agent/internal/email/manager.go:65-177 | over every statement-level interleaving each user and alias references a live domain named as in its address |
| MailInterleavings.DeadStaysDead | agent/internal/email/manager.go:75-78 | a removed domain identifier never becomes live again |
| MailInterleavings.AnswersIff | agent/internal/email/manager.go:88-165 | over every interleaving: an alias handler reports success in any case and its row is there if and only if the domain was not removed since its lookup; an account handler fails if and only if it was and the row is new or the key is checked first; a stale handler adds no row and moves none |
| MailInterleavings.AliasInsertIff | agent/internal/email/manager.go:156-162 | an alias insert succeeds, and the row is there exactly when the identifier looked up is live |
| MailInterleavings.AccountInsertIff | agent/internal/email/manager.go:104-111 | exactly when an account insert fails, and what it changes otherwise |
| MailInterleavings.LivesIff | agent/internal/email/manager.go:75-78 | an identifier looked up stays live exactly as long as its domain is not removed, whatever is added again |
| MailInterleavings.RemoveDomainExact | agent/internal/email/manager.go:74-86 | the statement takes the domain, and exactly the users and aliases of addresses in it |
| MailInterleavings.StepTakesUserIff | agent/internal/email/manager.go:74-143 | of all statements, exactly the deletion of that account and the removal of its address's domain take a user's row; no other changes it but an insert for the same address |
| MailInterleavings.UserLostOnlyBy | agent/internal/email/manager.go:74-143 | over every interleaving, a user that is there and later gone was deleted, or its domain removed, in between |
| MailInterleavings.StepTakesAliasIff | agent/internal/email/manager.go:74-177 | the same for an alias row, which nothing changes |
| MailInterleavings.AliasLostOnlyBy | agent/internal/email/manager.go:74-177 | the same over every interleaving |
| MailInterleavings.SkippedAliasReportsSuccess | agent/internal/email/manager.go:145-165 | a run that ends with a successful answer and no alias |
| MailHost.Manager.CreateAccount | agent/internal/email/manager.go:88-122 | when the row is stored, when success is reported and which directories exist, for every error of the statements and of each directory call; other rows unchanged; every user keeps a maildir if the address is plain and the call succeeds |
| MailHost.Manager.RemoveDomain | agent/internal/email/manager.go:74-86 | exactly the users of that domain go; the purge removes what is below the joined path, or less if it fails, and for a plain domain no maildir of another domain loses anything |
| MailHost.Manager.DeleteAccount | agent/internal/email/manager.go:124-143 | removes the row of this address and no other; the purge removes what is below the joined path, all of it if it succeeds, and for a plain address nothing of any other plain address |
| MailHost.Manager.AddDomain | agent/internal/email/manager.go:65-72 | inserts unless the name exists, and makes the domain's directory; errors of either are reported |
| MailHost.Manager.CreateAlias | agent/internal/email/manager.go:145-165 | adds one alias row for a known domain, unless a statement fails |
| MailHost.MaildirsAreDisjoint | agent/internal/email/manager.go:114-137 | maildirs of different plain addresses have no path in common |
| MailHost.PurgeIsHarmlessIff | agent/internal/email/manager.go:132-140 | purging one address can never cost another a path if and only if neither maildir lies in the other |
| MailHost.DirsAreOwnIff | agent/internal/email/manager.go:80-114 | the joined path is root/domain/local exactly when both are plain names, and root/domain exactly when the domain is |
| MailHost.MaildirSpelled | agent/internal/email/manager.go:113-122 | an address has its maildir exactly when the joined path is there and "cur", "new" and "tmp" below it |
| MailHost.OddNamesEscape | agent/internal/email/manager.go:132-137 | the maildir of "..@d" is the whole mail root |
| MailHost.SlashedNamesNest | agent/internal/email/manager.go:113-137 | the maildir of "a/cur@d" lies inside that of "a@d" |
| Tokens.ForeignKeyBlocksEveryBind | api/internal/store/store.go:81-119 | with the foreign key enforced, from empty tables: no token is ever bound, no server recorded, no identifier returned, and the "already used" branch never enabled |
| Tokens.TokensNeverShare | api/internal/store/store.go:58-88 | without it, distinct tokens never share an identifier and the "already used" branch is never enabled, in every run |
| Tokens.SerialFirstUsesAreStable | api/internal/store/store.go:76-87 | with non-overlapping first uses a token returns one identifier for ever |
| Tokens.ConsistentIffSerial | api/internal/store/store.go:58-88 | at the end of any run no token was given two identifiers if and only if no first use overlapped another of its token |
| Tokens.BindBreaksIff | api/internal/store/store.go:81-87 | the step behind it: a bind breaks the promise exactly when the token was bound after it was read |
| TokenRuns.LaterUseReturnsBound | api/internal/store/store.go:65-78 | a caller that reads a token after it was bound can return the identifier of the latest bind before its read, which the token was given before, for as long as it waits; it can never bind |
| TokenRuns.FirstUseBinds | api/internal/store/store.go:80-87 | a caller that reads a token before any bind of it can bind it to any fresh identifier while it waits, and has none to return |
| TokenRuns.LateReaderNeverBinds | api/internal/store/store.go:65-78 | in no run does a caller bind a token that was bound before its read |
| TokenRuns.OverlapsIff | api/internal/store/store.go:65-87 | a bind overlaps another exactly when another bind of the token lies between its caller's read and itself |
| TokenRuns.ReturnedIff | api/internal/store/store.go:76-87 | an identifier is ever returned for a token exactly when some update of the run binds the token to it |
| TokenRuns.TwoIdentifiersIff | api/internal/store/store.go:58-88 | at the end of any run a token was given two identifiers if and only if a caller read it, another bound it, and the first then bound it again |
| TokenRuns.UpsertRecordsReturned | api/internal/grpc/server.go:259-266 | a server row is recorded only by an upsert, under an identifier returned for the token its caller read |
| Tokens.InterleavedFirstUsesDisagree | api/internal/store/store.go:65-87 | two interleaved first uses return two identifiers |
| Tokens.Store.ValidateToken | api/internal/store/store.go:58-88 | the sequential result and table for unknown, bound and unbound tokens, with and without the foreign key; they are those of the caller's two statements run without another's in between |
| Tokens.RegistersAgain | api/internal/grpc/server.go:259-266 | two registrations in a row with one token get one identifier, or under the foreign key none |
| Registration.NoAgentEverConnects | api/internal/grpc/server.go:251-266 | with the foreign key, over every run of the protocol and the store together: the registry stays empty and every call is told "not connected" |
| Registration.ServersBelongToTokens | api/internal/grpc/server.go:259-266 | without it, accepted sessions with one server identifier presented the same token; if no first uses overlapped in the store's part of the run, sessions share an identifier exactly when they presented the same token |
| Vhosts.EveryPointIsConsistentIff | agent/internal/webserver/nginx.go:68-101 | from any state without dangling links, over every interleaving stopped or failing anywhere: each link targets an existing file at every point if and only if no delete or rollback removes a file that a link of another name targets |
| Vhosts.StepDanglesIff | agent/internal/webserver/nginx.go:80-98 | of all steps, exactly those removals make a link dangle |
| Vhosts.SafeForEverIff | agent/internal/webserver/nginx.go:68-101 | a state without dangling links stays so over every run if and only if each link targets the file of its own name |
| Vhosts.DeleteCuts | agent/internal/webserver/nginx.go:91-98 | the run that breaks any other state |
| Vhosts.FilesAreOwn | agent/internal/webserver/nginx.go:68-68 | the joined path is the domain's own file exactly when the domain has no slash, and then differs from every other domain's |
| Vhosts.OthersDoNotTouch | agent/internal/webserver/nginx.go:68-101 | operations on other domains leave a domain's link and file alone |
| Vhosts.RollbackRestoresIff | agent/internal/webserver/nginx.go:80-85 | over every interleaving, a rolled-back create leaves the domain's link and file as they were if and only if there was neither |
| Vhosts.PassedCreateServes | agent/internal/webserver/nginx.go:68-87 | over every interleaving, a create that is not stopped and whose config test passes leaves the domain with this config and its link |
| Vhosts.CreateAlone | agent/internal/webserver/nginx.go:68-87 | the steps of a create alone leave file and link, or neither if the config test fails |
| Vhosts.DeleteAlone | agent/internal/webserver/nginx.go:91-98 | the steps of a delete alone leave neither |
| Vhosts.RollbackLosesSite | agent/internal/webserver/nginx.go:68-85 | the run in which a site that was up is lost |
| Vhosts.RollbackEndsAbsent | agent/internal/webserver/nginx.go:80-85 | a completed rollback leaves the domain absent under any interleaving |
| Vhosts.Nginx.CreateVhost | agent/internal/webserver/nginx.go:54-88 | both directories after every outcome, which are those its steps lead to, and exactly when a link is left dangling |
| Vhosts.Nginx.DeleteVhost | agent/internal/webserver/nginx.go:91-101 | both directories after a delete, which are those its steps lead to, and exactly when a link is left dangling |
| Dns.Client.UpsertRecords | agent/internal/dns/powerdns.go:112-132 | the loop builds the record sets in order and the zone becomes the patched zone |
| Dns.BatchIsSingles | agent/internal/dns/powerdns.go:84-86 | one batched upsert equals the single upserts in order |
| Dns.LastWriteWins | agent/internal/dns/powerdns.go:112-132 | under each key the last record written stays |
| Dns.OtherKeysStay | agent/internal/dns/powerdns.go:112-132 | keys no record names are unchanged |
| Dns.KeysSpelled | agent/internal/dns/powerdns.go:183-199 | the absolute name and the upper-cased type of a key, character by character |
| Dns.KeysShareIff | agent/internal/dns/powerdns.go:124-130 | two types of one name share a key if and only if they have one length and agree at every position up to ASCII case |
| Dns.DifferentTypesStay | agent/internal/dns/powerdns.go:84-86 | of two records of one name with types that differ otherwise, writing the second leaves the first |
| Dns.DeleteUndoesUpsert | agent/internal/dns/powerdns.go:84-99 | a delete removes exactly the key an upsert of the same name wrote, for any two types equal up to ASCII case and the zone with or without its trailing dot |
| Dns.RelativeNamesAreDistinct | agent/internal/dns/powerdns.go:183-199 | distinct relative names get distinct keys, none of them the zone's own |
| Dns.KeysAreAbsolute | agent/internal/dns/powerdns.go:183-199 | every emitted name is absolute |
| Dns.ContentDecodes | agent/internal/dns/powerdns.go:115-118 | with a positive priority the content decodes to exactly priority and text |
| Dns.ZeroPriorityIsAmbiguousIff | agent/internal/dns/powerdns.go:115-118 | a text written without a priority is also the content of a record with one if and only if it starts with a positive 32-bit number and a space |
| Dns.ContentIsInjective | agent/internal/dns/powerdns.go:115-118 | away from such texts the content determines priority and text |
| Dns.ZeroPriorityIsAmbiguous | agent/internal/dns/powerdns.go:115-118 | such a text |
| Cpu.SampleCPU | agent/internal/system/metrics.go:21-49 | both loops: the first line of CPU counters, its numbers summed in wrapping arithmetic; too few fields or no such line is an error |
| Cpu.SampledIff | agent/internal/system/metrics.go:28-37 | there is a sample if and only if some line starts with "cpu " and the first of them has five fields |
| Cpu.FieldsAreWords | agent/internal/system/metrics.go:32-32 | white space separates fields and is skipped in front of them |
| Cpu.NumeralsAreRead | agent/internal/system/metrics.go:38-45 | a numeral is read as itself, saturating at 2^64-1; any other text as zero |
| Cpu.KernelTextReadsBack | agent/internal/system/metrics.go:29-45 | reading what the kernel prints gives the sample of the real counters, whatever lines surround it and however often they wrapped |
| Cpu.PercentIsExact | agent/internal/system/metrics.go:51-58 | below 2^64 of growth the wrapped differences are the true ones, idle within total |
| Cpu.PercentInRange | agent/internal/system/metrics.go:54-57 | the value is the busy share of the total, within 0..100, and zero when nothing was counted |
| Cpu.DeltasTelescope | agent/internal/rpc/agent.go:164-167 | total and idle deltas over any run of heartbeats, failed samples included, add up to the counters' growth |
| Cpu.Agent.BuildHeartbeat | agent/internal/rpc/agent.go:161-187 | the percentage is that of the true growth since the last successful sample; all deltas so far add up to the growth since the start; readings that failed are reported as zero |

## Left out

- gRPC, HTTP, TLS, keepalives and JSON; `stream.Send` is one atomic step.
- How memory, disk and load are read, `lastSeen`, log output and server shutdown.
- The HTTP handlers of `api/internal/grpc/routes.go`, account and database provisioning, disk quotas and the restart allowlist: each is settled by reading one branch.
- Development mode without a store, where the identifier is made from the host name: in the protocol the verdict of `authenticate` is any identifier.
- The arguments of commands and the text of generated nginx configs, which are uninterpreted here.
- `SetupSchema` and `migrate`: the tables exist with the keys of the schema.
- Column widths, password hashing and case-insensitive comparison in the mail database.
- Cpu.PercentIsExact: speaks of reals, because rounding of `float64` is not modelled.
- ProtocolProgress.WaitingCanBeAnswered: says that the answer stays reachable, not that a scheduler reaches it; fairness of goroutines is not modelled.
- Dns.RelativeNamesAreDistinct: upper-casing is modelled for ASCII letters only, and two names differing in case count as different.
- Vhosts.EveryPointIsConsistentIff: removing an existing file or link always succeeds; files and links not named "<domain>.conf" are not represented, nor are links out of the directory.
- OpenDkim.TableRefinesList: runs leave out unreadable tables and partial writes, after which a table need not be a list of entries; single calls with them are described by `SetupDKIM` and `RemoveDKIM`.
