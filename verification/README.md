# Reaper verification model

A Dafny model of the repository's four protocols, with proofs over every run, every interleaving
and every input. `dafny verify dfyconfig.toml` checks all of it.

**The ingress tunnel.** `Lifecycle` is the table of the tunnel's states, an independent reader of
audit rows and the grammar every audit follows. `TunnelPolicy` is the service as steps on its
state; `TunnelService` is the service as it is written, a store, a routing table and a service
object updated in place, each method proved to take exactly that step. `TunnelRuns` runs the steps
with every store call failing or not, a clock that never goes back, and crashes that empty the
volatile half; `TunnelTheorems`, `TunnelDecisions`, `AuditRows`, `RowDetails` and `LossReports`
say what every run guarantees, `TunnelHistory` derives every operation's answer from what succeeded
before it, and `Refusals` says what the answers mean to the agents that are turned away.
`LinkHandler` composes the service with any number of sessions and shutdowns, `Farewells` adds how
each session is closed and what its agent is told, `Agent` is the other end of the link, and `Host`
resolves inbound names.

**Flags.** `Flags` validates and evaluates definitions. `FlagStore` is the atomic
compare-revision publish and the in-memory store that takes it; `Projection` is the in-memory
projection and the publication service; `ProjectionRuns` interleaves commits, late puts, crashes
and reopenings. `BulkEvaluation` is the bulk answer and its entity tag, `Listing` the order flags
are listed in.

**The document authority.** `Couchbase` is the generated services' publish as separate reads,
counter increments and conditional writes by any number of writers, each of which may stall or die
anywhere, proved to be a run of `FlagStore`'s atomic publish.

**Artifacts.** `Artifacts` is any number of generators racing to publish directories, archives or
both.

How the world enters: the outcome of each store or system call, every clock reading, the drawn
credential, the hash and the JSON encoding are arguments, so each theorem covers all of them.
What the service itself does not keep (which link left the table how, which definitions were
committed, what the atomic store would answer) is recorded beside the state, never read by a step.

## Where the code and its promises differ

- A connect inside the cooldown is promised to be final for the agent
  (`specimens/ingress-tunnel/internal/tunnel/tunnels.go:25-28`). It is when the dial is refused,
  with 409. When two agents pass that check and one takes over before the other attaches, the
  other is closed as going away and retries:
  `Refusals.ConflictAfterUpgradeIsRetried` is such a run, `Refusals.GrantedMeetsCooldown` says
  exactly when, and `Farewells.RefusalIsToldUnlessCut` which refused attaches do stop an agent.
- An eviction is meant to stop the agent that loses. A session that a shutdown has closed or cut
  keeps what it was told first, so an eviction that follows leaves its agent dialling again:
  `Farewells.ShutdownSwallowsRevocation` is such a run and `Farewells.EvictionIsToldUnlessShutDown`
  says exactly when.
- `Claim` reads its clock and commits outside the service lock, so the times of the whole audit can
  go backwards at a claim's row: `AuditRows.ClaimsCanFallBehind` is such a run,
  `AuditRows.OrderedExactly` says exactly when, and `AuditRows.RowsAreAttributed` what is always in
  order.
- A host spelled as label and domain without a trailing dot does not resolve when that spelling
  itself ends in a dot, which happens exactly for an empty domain, the domain of a single dot, or
  one ending in two dots (`Host.ResolutionInvertsPrinting`, `Host.PlainSpelling`). The server
  refuses to start with an empty domain or one that begins with a dot
  (`specimens/ingress-tunnel/cmd/reaper-tunnel/config.go:50`), so only the last can occur:
  `Host.TwoDotsDoNotResolve` is that case.
- A rollout at 100 includes exactly the contexts whose attribute is present as a string
  (`Flags.RolloutsAreNested`), so every usable context only if it is on the targeting key
  (`Flags.FullRolloutIsTotal`); `Flags.FullRolloutCanMiss` is a flag and a context that it misses.
- A publish refused by the in-memory store can leave an empty map for its environment; no reader
  can see it (`FlagStore.MemoryStore.Publish`, `FlagStore.OnlySuccessIsVisible`).
- A delivery of both can leave its archive behind when the removal fails, or when the process dies
  between link and rename; `Artifacts.FailureLeavesNothing` says that nothing else can remain.

## Model

| member | source | states |
|---|---|---|
| TunnelTheorems.AuditIsReality | specimens/ingress-tunnel/internal/tunnel/tunnels.go:164-218 | In every crash-free run, at every lock release, reading a subdomain's audit rows back yields exactly its claim state and presence, and the rows are claimed, then tenancies of connected and takeovers, the last possibly open, with at most one final revocation that follows an absent state. |
| TunnelTheorems.AuditHasHistory | specimens/ingress-tunnel/internal/tunnel/tunnels.go:91-117 | With any number of crashes the rows are still those of a well-formed history; its tenancies without a recorded end are exactly the crashes that found the tunnel live, and its end agrees with the claim and the routing table. |
| TunnelTheorems.ConnectionsAreConserved | specimens/ingress-tunnel/internal/tunnel/tunnels.go:184-217 | Over any run with crashes: connected - superseded - disconnected = (1 if live now) + crashes while live. |
| TunnelTheorems.TearsAreCrashes | specimens/ingress-tunnel/internal/tunnel/tunnels.go:164-218 | The unrecorded ends of tenancies are exactly the crashes while live, counted along the run. |
| TunnelTheorems.RefusalsChangeNothing | specimens/ingress-tunnel/internal/tunnel/tunnels.go:91-117 | In every run a step that returns an error left claims, audit, routing table, cooldowns, generation and links as they were; neither panic of the lifecycle table is ever the reason. |
| TunnelTheorems.NeverPanics | specimens/ingress-tunnel/internal/tunnel/transition.go:71-88 | At every lock release no revoked claim is live, so the table's panics are unreachable, and the status written out in a loss report is the true one. |
| TunnelTheorems.TakeoversAreApart | specimens/ingress-tunnel/internal/tunnel/tunnels.go:142-151 | Two takeovers within one unbroken live tenancy are at least the cooldown, one minute, apart. |
| TunnelTheorems.TakeoversAreBounded | specimens/ingress-tunnel/internal/tunnel/tunnels.go:29 | n takeovers in one tenancy span at least n - 1 cooldowns. |
| TunnelTheorems.ReconnectIsNeverCooledDown | specimens/ingress-tunnel/internal/tunnel/tunnels.go:215-216 | From any reachable state in which the tunnel is absent, a reconnect with the claim's credential goes through at any time, and so does the first takeover after it. |
| TunnelTheorems.LinksLeaveOnce | specimens/ingress-tunnel/internal/tunnel/tunnels.go:111-115 | In every reachable state each link ever attached is the one in the routing table and never closed by policy, or left by exactly one of supersession, revocation, loss or crash, and was closed once for exactly that reason or not at all. |
| TunnelTheorems.FateIsSealed | specimens/ingress-tunnel/internal/tunnel/tunnels.go:189-217 | Whatever took a link out of the table, no later step of the run changes its fate or closes it again. |
| TunnelTheorems.AlwaysSound | specimens/ingress-tunnel/internal/tunnel/tunnels.go:158-163 | The service invariant holds at every lock release of every run: unrevoked live claims under their own credential, cooldowns only for live subdomains, unique credentials, audit in agreement with state. |
| LossReports.StaleLossIsSilent | specimens/ingress-tunnel/internal/tunnel/tunnels.go:198-218 | In every run a report on a link that was superseded, evicted or reported before succeeds and changes nothing, whoever serves; it changes something if and only if its own link is in the table and the write commits; and then it touches that link and no other. |
| LossReports.RecordedLossIsFinal | specimens/ingress-tunnel/internal/tunnel/tunnels.go:211-218 | After a recorded loss no report on the same link, however much later in the run, changes anything. |
| LossReports.ServesItsOwn | specimens/ingress-tunnel/internal/tunnel/registry.go:62-67 | A connection's link is in the table if and only if its own generation serves its subdomain. |
| LossReports.AlwaysHandles | specimens/ingress-tunnel/internal/tunnel/tunnels.go:184-195 | In every reachable state connections of different generations hold different links, each attached for its connection's subdomain. |
| TunnelHistory.ClaimsAreThoseMade | specimens/ingress-tunnel/internal/tunnel/tunnels.go:72-117 | In every reachable state the claims are those made before it in the run under their credentials, and the revoked ones those revoked before it. |
| TunnelHistory.ClaimAnswers | specimens/ingress-tunnel/internal/tunnel/tunnels.go:72-87 | A claim succeeds if and only if it is valid, drawn and committed and nothing before it in the run claimed the subdomain or used the credential. |
| TunnelHistory.RevokeAnswers | specimens/ingress-tunnel/internal/tunnel/tunnels.go:91-117 | A revocation succeeds if and only if the store works, it expects revision 1, and the subdomain was claimed before it in the run and never revoked. |
| TunnelHistory.AttachAnswers | specimens/ingress-tunnel/internal/tunnel/tunnels.go:164-185 | An attach goes through if and only if the store works, its subdomain was claimed before it for its credential and never revoked, and no takeover in the tenancy still running is less than the cooldown ago. |
| TunnelDecisions.RevocationIsFinal | specimens/ingress-tunnel/internal/tunnel/tunnels.go:91-117 | In no state after a revocation is the subdomain live or its credential accepted, and no later attach or revocation of it succeeds. |
| AuditRows.RowsAreAttributed | specimens/ingress-tunnel/internal/tunnel/tunnels.go:257-263 | In every run each row names the right actor and detail, the two rows of a takeover or of a forced disconnect are adjacent and share time and detail, and times are in order within each subdomain and among all rows written under the service lock. |
| AuditRows.OrderedExactly | specimens/ingress-tunnel/internal/tunnel/tunnels.go:80-83 | The times of the whole audit never go backwards if and only if, wherever a claim's row meets another, the row already committed is no later than the clock reading of the one that follows it. |
| AuditRows.ClaimsCanFallBehind | specimens/ingress-tunnel/internal/tunnel/tunnels.go:80-83 | A run in which they do: a claim reads its clock before another tunnel connects and commits after it. |
| AuditRows.NothingIsTakenBack | specimens/ingress-tunnel/internal/store/sqlite/claims.go:57-88 | Across any run with crashes the audit only grows, no claim disappears or changes credential, and a revoked claim never changes again. |
| RowDetails.RevocationsAreDated | specimens/ingress-tunnel/internal/tunnel/tunnels.go:105-116 | In every run an active claim carries no revocation date; a revoked one is the claim its one successful revocation returned, dated by that revocation's clock reading and by its withdrawal row. |
| RowDetails.RowsNameTheirConnection | specimens/ingress-tunnel/internal/tunnel/tunnels.go:184-185 | In every run the last row about a live tunnel is the connection that serves it, under its generation, and a disconnect recorded for an agent carries the generation of the connection whose row it follows. |
| Refusals.GrantedMeetsCooldown | specimens/ingress-tunnel/internal/tunnel/tunnels.go:142-151 | A session granted earlier in the run, from a read of the store and a later check of the cooldown, meets a conflict at its attach if and only if another agent took the tunnel over after the check and has served it since, within the cooldown; that conflict has it dial again, although the same conflict of a dial stops it. |
| Refusals.RacedTakeoverRetries | specimens/ingress-tunnel/internal/tunnel/tunnels.go:25-29 | In any sound state, of two agents granted a live tunnel at one moment the first takes over and the second's attach inside the cooldown is a conflict closed with 1001, which is retried, while any dial with the credential at that moment is answered with a conflict that stops. |
| Refusals.ConflictAfterUpgradeIsRetried | specimens/ingress-tunnel/internal/tunnel/tunnels.go:25-29 | A concrete run from the empty store in which this happens. |
| Refusals.CooldownHasTakeover | specimens/ingress-tunnel/internal/tunnel/tunnels.go:142-151 | A tunnel open to takeover at one state of a run is closed to it at a later one if and only if another agent took it over in between and has served it since, within the cooldown. |
| Refusals.RefusedAttachStops | specimens/ingress-tunnel/internal/link/accept.go:190-195 | In every sound state the reason chosen for closing a refused attach is one that stops the agent if and only if the store was read, the claim exists, and it carries another credential or is revoked. |
| Refusals.RefusedDialStops | specimens/ingress-tunnel/internal/link/accept.go:58-83 | In every state a dial that is turned away reads 503 while closing, 401 for a credential nobody holds, 409 for one that must wait and 500 if the store could not be read, and stops the agent exactly on the second and third. |
| Refusals.StampHasTakeover | specimens/ingress-tunnel/internal/tunnel/tunnels.go:189-194 | Behind every cooldown stamp of a run stands the takeover that left it, with the tunnel live ever since and no later takeover. |
| TunnelTheorems.AuthenticatedAttachSucceeds | specimens/ingress-tunnel/internal/tunnel/tunnels.go:119-138 | What authentication grants, an attach that follows in the same state delivers, under the next generation. |
| Lifecycle.TableIsReadBack | specimens/ingress-tunnel/internal/tunnel/transition.go:54-89 | The rows the lifecycle table emits for an accepted event lead an independent reader from the status before to exactly the status after. |
| Lifecycle.TableRefusesExactly | specimens/ingress-tunnel/internal/tunnel/transition.go:54-89 | The table panics exactly on a revoked live claim, refuses exactly a connection to or another revocation of a revoked one, and takes every loss, with a row only for a live tunnel's. |
| Lifecycle.ReplayHasHistory | specimens/ingress-tunnel/internal/tunnel/transition.go:54-89 | Every readable audit is the print of a well-formed history (claim, tenancies, at most one final revocation). |
| Lifecycle.HistoryReplays | specimens/ingress-tunnel/internal/tunnel/transition.go:54-89 | Conversely every well-formed history reads back to the position it ends in. |
| Lifecycle.ReplayBalances | specimens/ingress-tunnel/internal/tunnel/transition.go:54-72 | Any readable audit balances its connections against takeovers, disconnects, crashes and the link being served. |
| TunnelService.Service.Claim | specimens/ingress-tunnel/internal/tunnel/tunnels.go:72-87 | Refines the claim step: state, answer and links closed are those of the step under the same store outcome. |
| TunnelService.Service.Revoke | specimens/ingress-tunnel/internal/tunnel/tunnels.go:91-117 | Refines the revocation step, closing included. |
| TunnelService.Service.Identify | specimens/ingress-tunnel/internal/tunnel/tunnels.go:121-134 | The unlocked half: names the active claim with that credential, or says which of the two reasons there is none. |
| TunnelService.HalvesAnswer | specimens/ingress-tunnel/internal/tunnel/tunnels.go:121-138 | The claims read by the first half and the cooldown checked by the second, at any two moments, give the complete answer. |
| TunnelService.Service.Authenticate | specimens/ingress-tunnel/internal/tunnel/tunnels.go:121-138 | Grants exactly when some claim is authenticated by the credential; conflict exactly when an active claim holds it but must wait; unauthorized exactly when none does; changes nothing. |
| TunnelService.Service.Attach | specimens/ingress-tunnel/internal/tunnel/tunnels.go:164-196 | Refines the attach step, with the audit committed before the table moves and a failed write moving nothing. |
| TunnelService.Service.Lost | specimens/ingress-tunnel/internal/tunnel/tunnels.go:200-218 | Refines the loss step; closes no link. |
| TunnelService.Service.List | specimens/ingress-tunnel/internal/tunnel/tunnels.go:231-255 | Lists every claim exactly once, oldest first, live exactly if the routing table has it, with its own revision, state and dates, and nothing else. |
| TunnelService.Service.BuildEntries | specimens/ingress-tunnel/internal/tunnel/tunnels.go:257-263 | Builds one row per kind, in order, all with the same time, actor and detail. |
| TunnelService.ViewsNeverShowRevokedLive | specimens/ingress-tunnel/internal/tunnel/tunnels.go:240-253 | No view of a reachable state shows a revoked tunnel as live. |
| TunnelService.Registry.Attach | specimens/ingress-tunnel/internal/tunnel/registry.go:49-58 | Installs the link under its generation and hands back exactly the one it displaced. |
| TunnelService.Registry.Detach | specimens/ingress-tunnel/internal/tunnel/registry.go:71-80 | Removes the entry only if it still carries that generation, and says whether it did. |
| TunnelService.Registry.Evict | specimens/ingress-tunnel/internal/tunnel/registry.go:83-92 | Removes whatever is live for the subdomain and hands it back. |
| TunnelService.Store.InsertClaim | specimens/ingress-tunnel/internal/store/sqlite/claims.go:18-41 | Inserts claim and row together, or neither; conflict exactly when a unique column is taken. |
| TunnelService.Store.ClaimByTokenHash | specimens/ingress-tunnel/internal/store/sqlite/claims.go:44-47 | Finds a claim with that hash exactly when there is one. |
| TunnelService.Store.RevokeClaim | specimens/ingress-tunnel/internal/store/sqlite/claims.go:57-88 | Succeeds exactly on an unrevoked claim at the expected revision and then writes claim and rows together; otherwise nothing. |
| TunnelService.Store.AppendAudit | specimens/ingress-tunnel/internal/store/sqlite/audit.go:14-27 | All rows of the batch in order, or none. |
| TunnelService.Store.ListClaims | specimens/ingress-tunnel/internal/store/sqlite/claims.go:91-109 | Every claim once, in order of creation and then of subdomain. |
| LinkHandler.NothingJoinsAfterClosing | specimens/ingress-tunnel/internal/link/accept.go:169-187 | In every interleaving of sessions, operator steps and shutdowns, from the first shutdown on nothing joins the wait group: the set it counts and the counter only shrink. |
| LinkHandler.SilentAfterShutdown | specimens/ingress-tunnel/internal/link/accept.go:131-158 | Once any shutdown has returned no session attaches or reports a loss again, so none touches the store. |
| LinkHandler.ShutdownDrains | specimens/ingress-tunnel/internal/link/accept.go:125-128 | When a shutdown has returned, every entry still in the routing table is one whose loss could not be written; if none failed the table is empty and every subdomain's connections equal its supersessions and disconnects plus what crashes of earlier processes cut off. |
| LinkHandler.FirstProcessBalances | specimens/ingress-tunnel/internal/link/accept.go:94-158 | In the first process, with no failed loss write, connected = superseded + disconnected for every subdomain after shutdown. |
| LinkHandler.AlwaysAllSound | specimens/ingress-tunnel/internal/link/accept.go:94-187 | In every interleaving the wait group counts exactly the sessions between track and untrack, the live set is exactly those still cuttable, and every routing entry has a session that owes its loss report or a report that failed. |
| LinkHandler.CallersAreCounted | specimens/ingress-tunnel/internal/link/accept.go:111-128 | A session that calls the store is counted by the wait group at that moment. |
| LinkHandler.Handler.Track | specimens/ingress-tunnel/internal/link/accept.go:171-180 | Admits and counts the session unless closing has begun. |
| LinkHandler.Handler.BeginShutdown | specimens/ingress-tunnel/internal/link/accept.go:136-140 | Begins closing once; a second call changes nothing. |
| Farewells.EvictionIsToldUnlessShutDown | specimens/ingress-tunnel/internal/link/link.go:105-136 | In every interleaving a superseded or revoked session starts telling its agent so, which stops it, if and only if no shutdown had closed or cut that session before; otherwise its line stays as the shutdown left it. |
| Farewells.RefusalIsToldUnlessCut | specimens/ingress-tunnel/internal/link/accept.go:113-117 | In every interleaving a session refused at its attach starts telling its agent what stops it if and only if its credential was gone and no shutdown had cut it before. |
| Farewells.StopsForAReason | specimens/ingress-tunnel/internal/link/link.go:151-159 | In every interleaving an agent told something that stops it was superseded, revoked, or refused because its credential was gone. |
| Farewells.FirstCloseWins | specimens/ingress-tunnel/internal/link/link.go:110-116 | Once a session is closed or cut, nothing later in the run makes it tell its agent anything else, and what was told stays told. |
| Farewells.CutIsFinal | specimens/ingress-tunnel/internal/link/link.go:118-136 | After a cut, and after a farewell whose frame did not go out, a line not told before is cut for the rest of the run. |
| Farewells.OpenExactly | specimens/ingress-tunnel/internal/link/link.go:69-72 | A session's line is open if and only if nothing before it in the run closed or cut it. |
| Farewells.ShutdownSwallowsRevocation | specimens/ingress-tunnel/internal/link/accept.go:119-123 | A run in which a revocation closes a session that a shutdown has closed already, and the agent is only told that the server is going away. |
| Farewells.Session.Close | specimens/ingress-tunnel/internal/link/link.go:110-116 | The first close sets the reason; later ones change nothing. |
| Farewells.Session.Farewell | specimens/ingress-tunnel/internal/link/link.go:118-129 | A closing session's frame goes out and then stands, or the farewell gives up and the session is cut. |
| Agent.Run | specimens/ingress-tunnel/internal/agent/agent.go:97-136 | Every wait is the schedule entry for (dial failures since the last link, plus one if there ever was one); no dial follows a permanent refusal or an eviction; every other outcome is retried until cancellation, whether that comes while connecting, waiting or afterwards; the ending says which, with its status or reason. |
| Agent.FinalExactly | specimens/ingress-tunnel/internal/link/accept.go:224-226 | An agent's run ends exactly on statuses 401, 403 and 409 and on close statuses 4001 and 4003. |
| Agent.WaitIndexStep | specimens/ingress-tunnel/internal/agent/agent.go:114-130 | Counting failures turn by turn agrees with the definition over the whole history of answers. |
| Agent.Delay | specimens/ingress-tunnel/internal/tunnel/reconnect.go:40-48 | A valid schedule always gives a positive delay: its first for any attempt up to 1, its own entry for an attempt within it, its last from there on. |
| Host.AcceptedExactly | specimens/ingress-tunnel/internal/tunnel/host.go:13-27 | A host resolves to a label if and only if the label is valid and the host, without its port and one trailing dot, has the length of label.domain and the same lower case at every position. |
| Host.ResolutionInvertsPrinting | specimens/ingress-tunnel/internal/tunnel/host.go:13-38 | label.domain in any mixture of cases, with a trailing dot and with or without a port, resolves to the label; without the trailing dot it does if and only if the spelling does not itself end in a dot. |
| Host.PlainSpelling | specimens/ingress-tunnel/internal/tunnel/host.go:14-16 | The plain spelling ends in a dot exactly for an empty domain, a single dot, or a domain that ends in two dots. |
| Host.PortIsStripped | specimens/ingress-tunnel/internal/tunnel/host.go:29-38 | Appending a port to a plain name and stripping it are inverse. |
| Host.AcceptedUpToCase | specimens/ingress-tunnel/internal/tunnel/host.go:13-27 | In ASCII a host resolves to a valid label if and only if, without its port and one trailing dot, it is label.domain but for the case of letters. |
| Host.MixedCaseResolves | specimens/ingress-tunnel/internal/tunnel/host.go:14-15 | APP.example.com resolves to app at the domain Example.COM. |
| Host.PortExactly | specimens/ingress-tunnel/internal/tunnel/host.go:29-38 | The name before the port is split off exactly from a plain name and port or a bracketed name and port. |
| Host.ValidateLabel | specimens/ingress-tunnel/internal/tunnel/claim.go:63-86 | Accepts exactly 1 to 63 lowercase letters, digits and hyphens without a hyphen at an end. |
| Host.ValidateSubdomain | specimens/ingress-tunnel/internal/tunnel/claim.go:51-59 | Accepts exactly the valid labels that are none of the four reserved ones. |
| Host.VerbatimResolves | specimens/ingress-tunnel/internal/tunnel/host.go:13-27 | label.domain printed with the domain as configured resolves if and only if the domain is not empty; with one more dot, if and only if the domain has no trailing dot of its own. |
| Host.TwoDotsDoNotResolve | specimens/ingress-tunnel/internal/tunnel/host.go:14-16 | At the domain example.com.. the plain spelling app.example.com. resolves to nothing. |
| Flags.EvaluationIsDefined | internal/flags/evaluate.go:42-63 | For a valid flag and a usable context: a defined variant of the flag's kind; a disabled flag serves its default; the first rule whose attribute carries exactly its value decides; the rollout takes in exactly the contexts whose digest modulo 10000 is below 100 times its percentage; the rest get the default. |
| Flags.FirstMatchIsFirst | internal/flags/evaluate.go:51-55 | The rule search returns the first rule whose attribute carries exactly its value, or none. |
| Flags.EvaluationFailsExactly | internal/flags/evaluate.go:42-46 | An evaluation fails if and only if the context has no non-empty string under the targeting key, and then as invalid. |
| Flags.Validate | internal/flags/flag.go:77-104 | Accepts exactly the definitions of a known kind whose default, rules and rollout name defined variants of that kind over approved attributes. |
| Flags.ValidateKey | internal/flags/flag.go:134-158 | Accepts exactly the non-empty keys of ASCII letters, digits, dots, underscores and hyphens. |
| Flags.ApprovedAttributesDecide | internal/flags/context.go:5-15 | Contexts that agree on the approved attributes evaluate the same. |
| Flags.RolloutsAreNested | internal/flags/evaluate.go:73-82 | Raising the percentage never takes a context out; 0 includes none and 100 exactly those with a string attribute. |
| Flags.FullRolloutIsTotal | internal/flags/evaluate.go:73-82 | A valid rollout at 100 takes in every usable context if and only if it is on the targeting key. |
| Flags.FullRolloutCanMiss | internal/flags/evaluate.go:73-82 | A valid flag rolled out to all organizations serves its default to a context that names none. |
| Flags.RolloutSize | internal/flags/evaluate.go:78-81 | For every percentage p exactly floor(2^64/10000)*100p + min(100p, 2^64 mod 10000) of the 64-bit prefixes are included. |
| FlagStore.AuditCountsRevisions | internal/store/memory/memory.go:43-78 | In every run each flag's rows list revisions 1..n with n the current one, rows are numbered in order, and all current revisions add up to the number of rows. |
| FlagStore.OneWinnerPerRevision | internal/store/memory/memory.go:58-70 | At most one publish per flag and expected revision ever succeeds, and it moves the flag from exactly that revision to the next. |
| FlagStore.PublishDecides | internal/store/memory/memory.go:55-77 | In a sound store a publish succeeds if and only if it expects the current revision (0 when unknown); it then lists exactly that revision for its flag and touches no other. |
| FlagStore.PublishKeepsDefinition | internal/store/memory/memory.go:64-77 | What a successful publish stores, which is what it returns, is the submitted definition field by field, but for the next revision and the time; and its one row carries the same revision, actor and time. |
| FlagStore.PublishedEvaluatesAsSubmitted | internal/store/memory/memory.go:64-66 | For every digest and context the stored definition evaluates to the submitted one's value, variant and reason. |
| FlagStore.RevisionsGrow | internal/store/memory/memory.go:66-77 | Along every run revisions never fall and the audit only grows. |
| FlagStore.OnlySuccessIsVisible | internal/store/memory/memory.go:55-92 | A load and an audit page taken before a publish equal those taken after it if and only if the publish did not succeed; a success heads every later page. |
| FlagStore.MemoryStore.Publish | internal/store/memory/memory.go:43-78 | Refines the atomic publish on the flags and the audit, seen through the nested maps. |
| FlagStore.MemoryStore.Load | internal/store/memory/memory.go:27-40 | Returns for every environment with flags its one listing in key order, and mentions no other. |
| FlagStore.MemoryStore.Audit | internal/store/memory/memory.go:81-92 | The most recent rows first, as many as asked for and available. |
| Listing.ListingIsUnique | internal/snapshot/memory.go:59-71 | An environment's listing is determined by its flags. |
| Text.LessExactly | internal/snapshot/memory.go:67-70 | The order of keys is that of texts: a proper beginning first, and otherwise by the first difference. |
| Listing.ListSorted | internal/snapshot/memory.go:63-70 | Every flag of the map once, in strict key order. |
| Projection.Memory.Put | internal/snapshot/memory.go:36-48 | Refines the revision-guarded put on the flattened projection. |
| Projection.Memory.Replace | internal/snapshot/memory.go:22-33 | Drops what was there and indexes every loaded list by key. |
| Projection.Memory.List | internal/snapshot/memory.go:59-71 | Returns the environment's listing in key order. |
| Projection.ReplaceRestores | internal/snapshot/memory.go:22-33 | Replacing the projection by what a store loads makes it equal to the store's flags. |
| Projection.Service.Open | internal/flags/publish.go:23-30 | After opening, the projection equals the store; a failing load leaves the projection alone and gives no service. |
| Projection.Service.Evaluate | internal/flags/evaluate.go:18-27 | A single evaluation is the evaluation of the projected flag, invalid for an invalid environment and not found for an unknown flag. |
| Projection.Service.Publish | internal/flags/publish.go:33-58 | Refuses as invalid exactly on an invalid environment or definition, a negative revision or a blank actor. Invalid input changes neither half; otherwise the store takes exactly the atomic publish and, only on success, the projection exactly the guarded put of the committed definition. |
| ProjectionRuns.ProjectionNeverRegresses | internal/snapshot/memory.go:36-48 | With puts delivered in any order, across crashes and reopenings, no flag's projected or committed revision ever goes back. |
| ProjectionRuns.ProjectionNeverLeads | internal/flags/publish.go:47-57 | No projected revision exceeds the committed one. |
| ProjectionRuns.ReturnedIsVisible | internal/flags/publish.go:51-57 | After a publish has returned, the flag is projected at its revision or a later one whenever the service is up. |
| ProjectionRuns.DrainedIsEqual | internal/flags/publish.go:33-58 | With no put pending the projection equals the store. |
| ProjectionRuns.ReopeningRestores | internal/flags/publish.go:23-30 | Reopening after a crash at any point makes the two equal again. |
| ProjectionRuns.ProjectedFlagsEvaluate | internal/flags/evaluate.go:18-27 | In every reachable state every projected flag evaluates, for every usable context, to a defined variant of its kind at its own revision, decided by the first rule whose value the context carries, then by the bucket of its digest, then by default. |
| ProjectionRuns.ProjectedFlagsAgree | internal/flags/context.go:5-15 | In every reachable state contexts that agree on the approved attributes get the same evaluation from every projected flag. |
| ProjectionRuns.RevisionNamesDefinition | internal/snapshot/memory.go:36-48 | Anywhere in a run, a flag's revision names one definition. |
| BulkEvaluation.PreHashDecodes | internal/api/evaluate.go:136-147 | The bytes hashed into the tag determine every key, every revision and the encoded context. |
| BulkEvaluation.EqualBytesEqualAnswer | internal/api/evaluate.go:51-86 | Anywhere in a run, equal bytes within one environment mean the same flags, the same context and the same bulk body. |
| BulkEvaluation.NotModifiedIsSound | internal/api/evaluate.go:66-70 | A not-modified answer is given only when the body would be the one the client has, unless the hash collides on the two inputs (section 13.1.2 of RFC 9110). |
| BulkEvaluation.EvaluateAll | internal/api/evaluate.go:51-86 | Answers not-modified exactly on an equal tag, and otherwise one item per listed flag in order: a success exactly with what evaluating the flag alone in the whole context gives, else a GENERAL failure under its key. |
| BulkEvaluation.BulkIsSingles | internal/api/evaluate.go:71-79 | In every reachable state the bulk answer for an environment holds for each flag projected there, and no other, exactly what evaluating it alone gives; a failure is always the context's. |
| BulkEvaluation.EvaluationETag | internal/api/evaluate.go:136-147 | The loop hashes exactly the decodable bytes. |
| BulkEvaluation.DigitsRoundTrip | internal/api/evaluate.go:136-147 | Printing a revision in decimal and reading it back are inverse. |
| Couchbase.SettledPublishesAreARun | internal/factory/templates/languages/python/couchbase/reaper_flags/store/couchbase.py.tmpl:163-201 | However any number of writers interleave, stall or die, their settled publishes in settling order are a run of the atomic store, ending in the store the documents agree with. |
| Couchbase.WritersGetAtomicAnswers | internal/factory/templates/languages/python/couchbase/reaper_flags/store/couchbase.py.tmpl:163-201 | Each settled writer returns what the atomic store answers at that moment: success on exactly its expected revision, conflict only where the atomic store conflicts too. |
| Couchbase.AttemptsAreTheirWriters | internal/factory/templates/languages/python/couchbase/reaper_flags/store/couchbase.py.tmpl:163-177 | What a settled writer has the atomic store take is the publish it was started with, at the time it read when it checked the revision. |
| Couchbase.DocumentsAreTheStore | internal/factory/templates/languages/python/couchbase/reaper_flags/store/couchbase.py.tmpl:176-196 | In every reachable state the documents hold the atomic store's flags and, but for sequence numbers, its rows; document revision = definition revision = number of rows. |
| Couchbase.AtomicDecides | internal/factory/templates/languages/python/couchbase/reaper_flags/store/couchbase.py.tmpl:288-296 | The revision check against the stored document decides exactly as the atomic store does. |
| Couchbase.LandsIfCurrent | internal/factory/templates/languages/python/couchbase/reaper_flags/store/couchbase.py.tmpl:214-234 | The insert or the versioned replace lands if and only if the revision that was checked is still the stored one. |
| Couchbase.UndisturbedIsAtomic | internal/factory/templates/languages/typescript/couchbase/src/store/couchbase.ts.tmpl:147-175 | A publish nothing interleaves with does and answers exactly what the atomic store does. |
| Couchbase.Bucket.Publish | internal/factory/templates/languages/python/couchbase/reaper_flags/store/couchbase.py.tmpl:163-201 | One call, made of the read, the check, the counter and the write, takes exactly the moves of an undisturbed writer. |
| Couchbase.Bucket.InsertDocument | internal/factory/templates/languages/python/couchbase/reaper_flags/store/couchbase.py.tmpl:214-218 | Writes only a free key; otherwise conflict and no change. |
| Couchbase.Bucket.ReplaceDocument | internal/factory/templates/languages/python/couchbase/reaper_flags/store/couchbase.py.tmpl:220-234 | Writes only over the version that was read; another version is a conflict, a missing document is not found, and neither changes anything. |
| Couchbase.Bucket.NextSequence | internal/factory/templates/languages/python/couchbase/reaper_flags/store/couchbase.py.tmpl:236-245 | Every call yields a number never yielded before. |
| Couchbase.SequencesAreUnique | internal/factory/templates/languages/python/couchbase/reaper_flags/store/couchbase.py.tmpl:236-245 | Whatever writers fail and numbers they burn, no two rows anywhere carry the same sequence number and within a document they rise strictly. |
| Couchbase.AlwaysNumbered | internal/factory/templates/languages/python/couchbase/reaper_flags/store/couchbase.py.tmpl:178-195 | In every reachable state a number on its way to a document is in no document and with no other writer. |
| Couchbase.DocumentKeyIsInjective | internal/factory/templates/languages/python/couchbase/reaper_flags/store/couchbase.py.tmpl:284-285 | Distinct flags never share a document, as long as environments hold no colon. |
| Artifacts.OneSuccessfulOwner | internal/factory/render.go:164-192 | No path ever has two successful owners, whatever formats race and wherever they deliver. |
| Artifacts.NothingIsTakenFromOthers | internal/factory/archive.go:57-59 | No step overwrites an entry, and the only entry ever removed is an archive its remover linked itself. |
| Artifacts.EarlierEntriesStand | internal/factory/render.go:205-215 | Whatever stood at a path before the race stands there throughout, and no generator ever succeeds there. |
| Artifacts.EarlierEntriesStop | internal/factory/render.go:205-215 | A generator that delivers to a path where something older stands gets no further than its inspection and puts nothing anywhere. |
| Artifacts.SuccessLasts | internal/factory/render.go:164-192 | A success is for good. |
| Artifacts.BothComeTogether | internal/factory/render.go:179-192 | A successful delivery of both has its directory and its archive in place, from one generator, from then on. |
| Artifacts.FailureLeavesNothing | internal/factory/render.go:184-190 | A failed generator has nothing left at any path, except its own archive where the removal itself failed; one that died has at most its own archive, and only if it was to deliver both. |
| Artifacts.FileSystem.PublishDirectoryAndZIP | internal/factory/render.go:179-192 | Both or neither, unless the compensating removal fails; the leftover is then exactly its own archive. |
| Artifacts.FileSystem.PublishRepository | internal/factory/render.go:111-117 | The call made for each format leaves the tree and the outcome that the race's moves give a generator nobody disturbs, and reports exactly the paths the format delivers. |
| Artifacts.FileSystem.PublishDirectory | internal/factory/render.go:164-169 | Publishes exactly onto a free path. |
| Artifacts.FileSystem.PublishZIP | internal/factory/render.go:171-177 | Publishes exactly onto a free archive path. |
| Artifacts.FileSystem.EnsureAvailable | internal/factory/render.go:205-215 | Passes exactly when every path could be inspected and none exists. |

## Left out

- TunnelService.Service.Claim: one step, because before its one transaction it only validates, draws the credential and reads the clock; that reading is an argument free of every other reading, so operations that read and committed in between are covered.
- TunnelService.Service.Authenticate: the call with nothing between its halves; `TunnelService.HalvesAnswer` and `Refusals.GrantedMeetsCooldown` take the two at different moments.
- TunnelService.Store.AppendAudit: the store's own numbering of rows is their position; reading audit pages is not modelled.
- Listing.ListSorted: repeatedly takes the least key, where the source collects and calls a library sort; only the result is the source's.
- LinkHandler.SilentAfterShutdown: speaks of sessions after the upgrade; a request still authenticating over plain HTTP may read the store.
- LinkHandler.ShutdownDrains: safety at return only; that a cut link ends, and so that a shutdown returns, depends on the socket and multiplexer.
- Agent.Run: takes a script of answers and cancellations in place of a dialer and a timer; serving requests while linked is not modelled.
- Projection.Service.Open: the durable store is the in-memory one, with a load that may fail.
- Couchbase.Bucket.Publish: one writer's call; interleaved calls are the machine's moves on values, because Dafny methods do not interleave.
- Artifacts.FileSystem.Rename: fails on any existing path, since generated directories are never empty and renaming refuses a directory already there; processes other than generators do not touch the destination during the race.
- BulkEvaluation.EvaluateAll: the hash is hexadecimal text, which quoting leaves as it is; a context that cannot be encoded and an unknown environment are answered before this point.
- Session internals: streams, keep-alives and the multiplexer; whether a close frame that was sent is read; failure to set up the multiplexer before a session is tracked.
- Farewells.EvictionIsToldUnlessShutDown: an eviction and its call to `Close` are one step under the service lock; a shutdown's close that falls between them counts as before the eviction.
- An edge request that already holds a link when that link is superseded.
- Credentials and hashing: token generation and format, SHA-256 and base64 are arguments.
- Flag copies: definitions are values here, so aliasing between callers and stores cannot arise.
- SQLite, Mongo and PostgreSQL engines: the SQLite stores are atomic transactions that commit or do nothing; a commit that reports an error after writing is excluded.
- Widths: revisions, generations and sequence numbers are unbounded; texts are sequences of characters, not UTF-8 bytes.
- Parsing of delays and durations, request decoding, bearer checks, response writing, the clamp on audit page sizes.
- Recipes, template rendering, the content of archives, Terraform, proxies, the browser page, and evaluation in the generated languages.
