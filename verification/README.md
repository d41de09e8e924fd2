# warden-connect, verified in Dafny

This project models the parts of warden-connect where state, arithmetic or parsing decide whether the control
plane keeps its promises, and proves those promises over every input or every run.

- **The control plane as a concurrent step system** (`Plane*.dfy`). Requests run on many threads over one plane with
  separate mutexes for the store, the evidence chain, the revocation feed, the acknowledgement ledger and the
  idempotency cache. Each handler is a short program of lock operations and commit-or-fail effects. A run is any
  interleaving of arrivals, refresh passes, clock readings and steps, where any effect the code lets fail may fail and
  any lookup may answer anything the code lets it answer. The theorems are about every such run: mutual exclusion, no
  deadlock, a bound on the length of runs, the order in which containment reaches the three logs, what a 202 means, what
  a replay is, how far apart two successes under one key are, which role is behind every change, what each method and
  path does and answers, and what a refusal can leave behind. Where something is said to be possible, the run that shows
  it also obeys guards (`PlaneGuards.dfy`): whether a body is accepted, whether the register permits an act as it
  stands, and which answers there are, each an arbitrary function.
- **Address blocks and the transport decision** (`Cidr.dfy`, `Transport.dfy`). Bit masks against the arithmetic
  meaning of a prefix (section 3.1 of RFC 4632), and the decision to believe a credential.
- **Codecs** (`Der.dfy`, `Pae.dfy`, `Args.dfy`). DER signatures (section 2.2.3 of RFC 3279; INTEGER in section 8.3 of
  X.690) to the fixed-width form (section 3.4 of RFC 7518), the DSSE pre-authentication encoding, and the command line.
- **Risk tiers and admission** (`Tier*.dfy`, `Admission.dfy`). The derivation as a closed form, what can and cannot
  relax a tier, and the seven-stage pipeline over arbitrary verifier answers.
- **Graphs and order statistics** (`Sbom.dfy`, `Estate.dfy`, `Gate.dfy`, `Sorting.dfy`).
- **Configuration layering** (`Config.dfy`): command line over file over environment, filled in place.

## Where the code and its own words differ

The model follows the code.

- The comment on `idempotent` says a retry cannot double-apply. That holds when requests take turns on a clock that does
  not go back (`PlaneRetries.RetriesApplyOncePerLifetime`). When copies overlap, it is left to the register: they can be
  applied twice exactly when the register permits the request at some time and, after itself, at some time again
  (`PlaneCopies.AppliedTwiceExactlyWhen`). A quarantine and a revocation meet that, and a connection does when policy
  comes to admit another like it. An activation, a clearing, an approval and a denial never do
  (`PlaneRegister.AppliedTwiceExactlyOn`, `PlaneRegister.SettledAtMostOnce`, `PlaneRegister.DecidedAtMostOnce`).
  A clock that goes back opens the same gap without any overlap (`PlaneRetries.ClockGoingBackAppliesTwice`).
- The cache knows only the key and the body hash, not the route or the caller, and a replay always answers 200, even of
  a 201 or 202. A replay can therefore cross routes, roles and the requests being decided
  (`PlaneReplays.ReplayCanCrossRoutes`, `PlaneReplays.ReplayCanCrossRoles`, `PlaneReplays.ReplayCanCrossRequests`). It
  cannot when each key is used on one route, the id in its path included (`PlaneReplays.OneRouteReplaysItself`).
- The estate builder's comment speaks of three hops. Two are enough from five contracts on, and one never is.
- `pae` counts the characters of the payload type, where DSSE counts bytes. The two agree exactly on ASCII types.
- In the SBOM script, a dependency with an empty `dep_kinds` list is followed when deciding what ships and left out
  when edges are drawn. Nothing dangles, but a shipped package can be left without any edge leading to it.
- A trusted-proxy list that is emptied, rather than shortened, admits more and not less.
- Declaring a first data class can relax a tier, because declaring none counts as tier 2. Lengthening a name that
  matches no keyword can relax its class. Both are given with their exact conditions.
- `readOnlyHint` is documented as able to lower severity. It changes nothing.
- `fully_attested` asks for more than the attested posture: screening must have been configured too.

## Model

| member | source | states |
|---|---|---|
| PlaneLocks.DispatchIsDisciplined | crates/wc-control/src/api.rs:983-1354 | whatever request arrives, its program takes locks in one global order, touches a component only under its lock, ends holding none, and has at most 22 instructions |
| PlaneLocks.UnwindIsDisciplined | crates/wc-control/src/api.rs:1084-1125 | leaving a handler early at any point releases exactly what is held, innermost first |
| PlaneLocks.LocksAgreeAlways | crates/wc-control/src/api.rs:1084-1125 | in every reachable state the lock table and the threads agree on who holds what, and no lock has two holders |
| PlaneLocks.NoTwoTouchOneComponent | crates/wc-control/src/api.rs:1687-1796 | in every reachable state, a thread about to touch a component holds its lock and no other thread does |
| PlaneLocks.NeverDeadlocked | crates/wc-control/src/api.rs:1553-1566 | every reachable state with an unfinished request has an enabled step |
| PlaneLocks.RunsAreBounded | crates/wc-control/src/api.rs:983-1004 | in every run the steps taken plus the instructions left are at most 22 per arrival or refresh pass |
| PlaneLocks.EverythingCanFinish | crates/wc-control/src/api.rs:2025-2077 | from every reachable state, steps alone can bring all requests to an end |
| PlaneProgress.NeverStuck | crates/wc-control/src/api.rs:1514-1871 | whatever decides how operations turn out, as long as every request can be given some answer, every reachable state with an unfinished request has a step that decision allows |
| PlaneProgress.EverythingCanFinishLawfully | crates/wc-control/src/api.rs:1514-1871 | and every run it allows can be extended by steps it allows until all requests are finished |
| PlaneContainment.InOrderAlways | crates/wc-control/src/api.rs:1676-1807 | the invariant behind the containment order holds in every reachable state, under any interleaving and any failures |
| PlaneContainment.EachStepHadTheOneBefore | crates/wc-control/src/api.rs:1676-1740 | for each request and subject, feed entries number at most evidence rows, which number at most commits, by that same request |
| PlaneContainment.ContainmentIsOrdered | crates/wc-control/src/api.rs:1742-1807 | the same order holds of the totals per party and per connection, if it held of the history before the run |
| PlaneContainment.LogsOnlyGrowAlways | crates/wc-control/src/api.rs:1815-1871 | between any two points of any run, store, evidence and feed only grow at the end: clearing a quarantine removes nothing |
| PlaneContainment.AcceptedMeansContained | crates/wc-control/src/api.rs:1676-1807 | a request answered as done has its own commit, its evidence row, and, with a feed configured, its feed entry, of the act its route stands for; the rows of PlanePaths say which act and which answer that is, path by path |
| PlanePaths.TheDoor | crates/wc-control/src/api.rs:769-957 | every request, by its method and path as written, its credential, transport, role, key and the plane's switches: turned away with exactly this status, 401, 409, 405, 404, 403, 500 or 400, or let in to wait |
| PlanePaths.AsAskedAlways | crates/wc-control/src/api.rs:769-957 | in every reachable state a thread has ahead of it only what its method and path order, was answered only as they may be, and every log entry of the run is what its maker's path orders |
| PlanePaths.ServedByThePath | crates/wc-control/src/api.rs:769-957 | in every run a served request has a status its path may have, and its caller holds the role its path asks for |
| PlanePaths.ServedQuarantine | crates/wc-control/src/api.rs:1742-1807 | in every run, a served POST on v1/quarantine was told 202 and put exactly a quarantine of the party its body names on register, evidence and, if there is one, feed |
| PlanePaths.ServedClearing | crates/wc-control/src/api.rs:1815-1871 | a served POST on v1/quarantine/clear was told 202 and put exactly a lifting for that party on register and evidence, and nothing on the feed |
| PlanePaths.ServedRevocation | crates/wc-control/src/api.rs:1676-1740 | a served POST on v1/connections/{id}/revoke was told 202 and put exactly a revocation of that connection on register, evidence and, if there is one, feed |
| PlanePaths.ServedActivation | crates/wc-control/src/api.rs:1514-1526 | a served POST on v1/entities/{id}/activate was told 200 and put exactly the activation of that entity on the register, and nothing elsewhere |
| PlanePaths.ServedByTheIssuer | crates/wc-control/src/api.rs:1568-1660 | a served connection request was told 201 or 202, an approval 201 and a denial 200; each left nothing but its own act, for the request in its path, and nothing on the feed |
| PlanePaths.RevocationLooksFirst | crates/wc-control/src/api.rs:1676-1740 | a revocation that is let in looks its connection up under the store lock, lets go, and only then revokes |
| PlanePaths.OnlyRefreshChangesTheView | crates/wc-cli/src/main.rs:9221-9245 | in every run without a refresh pass, whatever the requests, a read-only plane serves from the snapshot it had |
| PlanePaths.RefreshBringsASnapshot | crates/wc-cli/src/main.rs:9221-9245 | a refresh pass can bring in any snapshot, and changes nothing else |
| PlaneChecks.CheckedAlways | crates/wc-control/src/api.rs:1514-1871 | in every run the guards allow, nothing is appended before its request's body was checked, and the invariants behind the next row hold |
| PlaneChecks.NothingUnchecked | crates/wc-control/src/api.rs:1514-1871 | in every run the guards allow, with any interleaving: whoever has an entry on the register sent an accepted body and a request the register permitted; whoever is served was accepted and told something that may be answered; a revocation past its look-up was permitted |
| PlaneFailures.RefusalCanLeaveSteps | crates/wc-control/src/api.rs:1676-1871 | refused is not undone: any quarantine, lifting or revocation that is let in, accepted and permitted can fail as it comes to record or publish and be refused with exactly its earlier steps in place, the failed one too if it reached its log |
| PlaneFailures.IssuerCanStopHalfway | crates/wc-control/src/api.rs:1568-1660 | a connection request, approval or denial can be refused with any number of register entries the register permits, and any number of evidence rows, left behind |
| PlaneIdempotency.SoundAlways | crates/wc-control/src/api.rs:968-1007 | every cache record of this run stems from a completed successful handler with that key and body hash |
| PlaneReplays.ToldAlways | crates/wc-control/src/api.rs:803-1007 | in every reachable state a mutating request is served with a status of its own route, a replay says 200, and neither happens to a caller without the role of the route it asked for |
| PlaneReplays.ReplayIsAnEarlierAnswer | crates/wc-control/src/api.rs:983-1007 | under any interleaving, a replayed request is told 200 and the body of another request with the same key and body hash that was served with a status of its own route, by a caller holding that route's role |
| PlaneReplays.OneRouteReplaysItself | crates/wc-control/src/api.rs:983-1007 | if every mutating request under a key is on one route, which names the entity, request or connection it is about, a replay under it copies that route's answer, its caller holds the role for it, and, SHA-256 being injective, it is about the same act |
| PlaneReplays.ReusedKeyIsRefused | crates/wc-control/src/api.rs:983-1000 | any two mutating requests let in with one key and different body hashes, the first accepted and permitted, have a run in which the first is served, the second told 409, and no log has an entry by the second |
| PlaneReplays.ReplayCanCrossRoutes | crates/wc-control/src/api.rs:983-1007 | any two mutating requests let in with one key and one body hash, on any routes, the first accepted by its handler and permitted by the register, have a run in which the first gets any answer it may get, the second is told 200 and that body, and no log has an entry by the second |
| PlaneReplays.ReplayCanCrossRoles | crates/wc-control/src/api.rs:803-1007 | wherever one token may request connections and another may only register, the second can be handed the answer, 201 or 202, to any accepted and permitted connection request of the first, which it had no role to ask for, and its own activation is not made |
| PlaneReplays.ReplayCanCrossRequests | crates/wc-control/src/api.rs:983-1007 | an approver who denies two pending requests with one key and one body can be told 200 twice with only the first denied |
| PlaneIdempotency.SpacedAlways | crates/wc-control/src/api.rs:968-1007 | if requests under one key come one after the other and the clock does not go back, the spacing invariant holds throughout |
| PlaneIdempotency.SuccessesAreALifetimeApart | crates/wc-control/src/api.rs:62 | then a later success under that key looked up the cache at least 86,400 seconds after the earlier one read the clock |
| PlaneRetries.RetriesApplyOncePerLifetime | crates/wc-control/src/api.rs:963-1007 | if all writers take turns, two successes under one key read the clock at least 86,400 seconds apart |
| PlaneSolo.FinishAlone | crates/wc-control/src/api.rs:983-1004 | a request past its lookup with nobody else holding a lock, if its body is accepted and the register permits it as it stands, can be run to the end while nobody else moves: exactly its entries on top of the register, remembered, and answered in any way it may be |
| PlaneSolo.ServeNew | crates/wc-control/src/api.rs:983-1004 | likewise for a request that finds the plane quiet and its key without a live record, and it leaves exactly its own record behind what was live |
| PlaneRetries.OverlapCanApplyTwice | crates/wc-control/src/api.rs:963-1007 | on every plane, for every mutating request let in under a key that its handler accepts, that the register permits at some time and, after itself, at some time again, two copies that read the clock alike have a run in which both are on the register and both get any answers they may; the clock need not go back if the times are in order |
| PlaneCopies.CopiesAlways | crates/wc-control/src/api.rs:983-1004 | in every run of copies of one request alone, whatever the clock does, the register holds what it held, or one copy's entries on top, unless it permits the request again after itself at some time |
| PlaneCopies.AppliedTwiceExactlyWhen | crates/wc-control/src/api.rs:963-1007 | copies of a request alone, overlapping and with the clock moving as they may, can put it on the register twice if and only if the register permits it at some time and permits it again after itself at some time; on a clock that does not go back, at that time or later |
| PlaneRegister.SettledIsRefused | crates/wc-core/src/model.rs:433-444 | once an activation, a clearing or a decision is on the register, the register does not take the same one again |
| PlaneRegister.ActivationTakenExactlyWhen | crates/wc-core/src/model.rs:433-444 | after any acts of the run, an activation is taken exactly if it is fit, the entity is known, and the last act about it lifted a quarantine, or there was none and it started pending or suspended and not quarantined |
| PlaneRegister.ClearingTakenExactlyWhen | crates/wc-control/src/registry.rs:286-329 | a lifting is taken exactly if it is fit, the party is known, and it was quarantined, before the run or in it, and not lifted since |
| PlaneRegister.QuarantineTakenExactlyWhen | crates/wc-control/src/registry.rs:243-249 | a quarantine is taken exactly if it is fit and the party known, whatever was done before |
| PlaneRegister.RevocationTakenExactlyWhen | crates/wc-control/src/issuance.rs:1298-1303 | a revocation is taken exactly if it is fit and the connection known, whatever was done before |
| PlaneRegister.DecisionTakenExactlyWhen | crates/wc-control/src/issuance.rs:897-902 | an approval or denial is taken exactly if it is fit and the request in its path was not decided in the run |
| PlaneRegister.AppliedTwiceExactlyOn | crates/wc-control/src/registry.rs:136-329 | with the register's own guards, on a clock that may go back and on one that may not, copies of a request alone can be applied twice if and only if it orders a quarantine or revocation the register takes at some time, or asks for a connection that policy admits at some time and, after itself, at some time again |
| PlaneRegister.SettledAtMostOnce | crates/wc-control/src/registry.rs:136-329 | however they overlap and whatever the clock does, copies of one activation, clearing, approval or denial are applied at most once |
| PlaneRegister.DecidedAtMostOnce | crates/wc-control/src/issuance.rs:897-902 | in every run the register's guards allow, with any other requests, keys and clock, at most one thread is on the register for deciding a pending request, approvals and denials racing included |
| PlaneRetries.ClockGoingBackAppliesTwice | crates/wc-control/src/api.rs:981-1004 | without the clock premise turn-taking is not enough: a clock that runs ahead a lifetime and comes back lets a request that the register permits again by then be applied twice at one reading, with no overlap at all |
| PlaneAuthority.AccountableAlways | crates/wc-control/src/api.rs:786-957 | in every reachable state every entry of this run is attributed to a request that was let in under the role guarding it |
| PlaneAuthority.EveryChangeIsAuthorised | crates/wc-control/src/api.rs:393-407 | over every run the logs only grow, and every entry added to store, evidence or feed was made by a request holding the guarding role, on a plane that is not read-only |
| PlaneAuthority.UnheldRoleChangesNothing | crates/wc-control/src/api.rs:803-957 | if no registered token carries a role, no run adds an entry guarded by it; without secops the feed, and without mediators the ledger, never change |
| PlaneAuthority.CacheStandsStill | crates/wc-control/src/api.rs:968-1007 | on a read-only plane, or with no writing role held, no run changes the cache |
| PlaneAuthority.ReadOnlyChangesNoState | crates/wc-control/src/api.rs:786-798 | on a read-only plane no run changes store, evidence, feed or cache |
| PlaneAuthority.AckLands | crates/wc-control/src/api.rs:1934-1979 | under any interleaving, read-only or not, an acknowledgement answered as done, or one with a sequence number no smaller, is on the ledger for its mediator; what is on it is in PlanePaths.LedgerIsPosted |
| PlaneAuthority.AckCanBeRecorded | crates/wc-control/src/api.rs:786-798 | on any plane, read-only or not, a mediator's acknowledgement that can be read has a run after which the ledger holds exactly it, unless a greater sequence number was held, every other mediator is as before, and nothing else changed |
| PlanePaths.LedgerIsPosted | crates/wc-control/src/dist.rs:151-159 | in every reachable state, what a mediator is on the ledger with is what it was before the run, or exactly what a request of the run posted on v1/mediators/{that mediator}/ack |
| PlanePaths.ServedAck | crates/wc-control/src/api.rs:1934-1979 | a served acknowledgement was told 204, came from a mediator, put nothing on the three logs, and the ledger is at its sequence number or past it |
| PlanePaths.OnlyItsBodyCanRefuseIt | crates/wc-control/src/api.rs:1934-1979 | in every run, once an acknowledgement was let in and its body read, no step refuses it |
| PlaneAuthority.AcksNeverGoBack | crates/wc-control/src/dist.rs:151-159 | over every run a mediator's acknowledged sequence number never falls |
| Cidr.ShiftedOnesIs | crates/wc-control/src/api.rs:563-627 | all ones shifted left within the width is the number the mask stands for |
| Cidr.AndClearsLowBits | crates/wc-control/src/api.rs:563-627 | a bitwise and with that mask rounds down to a multiple of a power of two |
| Cidr.MaskIsQuotient | crates/wc-control/src/api.rs:563-627 | masking keeps the family and rounds the address down to a multiple of the block size |
| Cidr.ContainsIsQuotient | crates/wc-control/src/api.rs:649-672 | for every prefix from 1 to the width, the block parses, and it contains exactly the same-family addresses with an equal quotient, one interval of that size |
| Cidr.MaskIsIdempotent | crates/wc-control/src/api.rs:563-627 | masking twice is masking once |
| Cidr.BlocksNestOrMiss | crates/wc-control/src/api.rs:649-672 | of two same-family blocks the narrower is inside the wider or disjoint from it |
| Transport.MatchesByFold | crates/wc-control/src/api.rs:515-529 | folding XOR and OR over the digests is true exactly for equal digests |
| Transport.PolicyIsWellFormed | crates/wc-cli/src/main.rs:1017-1091 | every policy the flags can produce has well-formed sources |
| Transport.StartsExactlyWhen | crates/wc-cli/src/main.rs:1017-1091 | the listener starts exactly if plaintext is asked for; or behind a TLS proxy with only readable sources and no secret file or one of at least 32 bytes; or else on a loopback host with no proxy settings |
| Transport.BelievesExactly | crates/wc-control/src/api.rs:676-719 | from the flags as given, a request is believed exactly if plaintext was asked for; or behind a TLS proxy, the peer equals a bare operand or has the quotient of a block (any peer if none is listed), the secret is presented if there is one, and x-forwarded-proto is https in any case; or else the peer is loopback |
| Transport.DefaultIsLoopback | crates/wc-cli/src/main.rs:1017-1091 | with neither transport flag, the flags are accepted exactly for a loopback listener without proxy settings, and only loopback peers are believed |
| Transport.LoopbackIsABlock | crates/wc-control/src/api.rs:649-672 | an IPv4 address is loopback exactly when the block 127.0.0.0/8 contains it |
| Transport.NarrowingOnlyShrinks | crates/wc-control/src/api.rs:676-719 | adding a secret, or shortening a trusted list without emptying it, admits no new request; what is admitted is in Transport.BelievesExactly |
| Transport.EmptyingTheListWidens | crates/wc-control/src/api.rs:676-719 | with any secret or none, shortening a trusted list admits no new request if and only if something is left on it |
| Transport.SecretHasToBePresented | crates/wc-cli/src/main.rs:1017-1091 | with a secret file, every admitted request carried the file's secret, which is long enough, given that SHA-256 is injective |
| Der.DerToRaw | examples/signers/kms-der.py:54-90 | for every byte string the index-driven decoder gives the specified result, errors included, and what it accepts becomes the two encoded numbers in order, big-endian at fixed width |
| Der.ReadIntMeans | examples/signers/kms-der.py:78-86 | an INTEGER is read exactly when its tag is there and its stripped content fits, and the padded result has its value |
| Der.AcceptedKeepsBothNumbers | examples/signers/kms-der.py:54-90 | whatever is accepted, the output is the two encoded numbers in order, big-endian at fixed width |
| Der.ContentsAreMinimal | examples/signers/kms-der.py:54-90 | the encoder used in the round trip is the minimal non-negative DER INTEGER of X.690 |
| Der.RoundTrip | examples/signers/kms-der.py:54-90 | for all r and s that fit any width below 127, under short and long SEQUENCE headers, decoding the encoding gives exactly r then s |
| Pae.PaeIsInjective | scripts/gen-attest-fixtures.py:171-175 | for all payload types and bodies, equal encodings have equal types and equal bodies |
| Pae.AgreesWithDsseOnAscii | scripts/gen-attest-fixtures.py:171-175 | the encoding is what DSSE v1 writes for the type's bytes (the letters DSSEv1, then length and content of type and body, separated by spaces, lengths in decimal) if and only if the payload type is ASCII |
| Pae.DecimalSpells | scripts/gen-attest-fixtures.py:171-175 | lengths are written in ASCII digits that read, base ten, as the length, without a leading zero unless it is zero |
| Pae.SpellingIsUnique | scripts/gen-attest-fixtures.py:171-175 | and that is the only such spelling |
| Pae.DsseIsTheFormat | scripts/gen-attest-fixtures.py:171-175 | exactly one byte string is the DSSE v1 encoding of a type and a body, as the format describes it |
| Pae.ScalarIsRebuilt | scripts/gen-attest-fixtures.py:171-175 | the bits of every encoded character are its code point |
| Pae.TextIsReadBack | scripts/gen-attest-fixtures.py:171-175 | UTF-8 texts of equal length in characters are told apart by their bytes, whatever follows |
| Pae.DecimalIsInjective | scripts/gen-attest-fixtures.py:171-175 | decimal lengths are uniquely readable |
| Args.Parse | crates/wc-cli/src/args.rs:28-60 | the token loop computes the recursive reading of the tokens |
| Args.ParseIsRegular | crates/wc-cli/src/args.rs:28-60 | parsing yields no verb or positional starting with two dashes, no key with '=', no key without values, and no positional without a flag |
| Args.PlainTokensAreVerbs | crates/wc-cli/src/args.rs:28-60 | tokens none of which starts with two dashes are the verbs, in order, and nothing else |
| Args.NormalFormRoundTrips | crates/wc-cli/src/args.rs:28-60 | for every token list and every key order, printing what was parsed in normal form and parsing again gives the same arguments |
| Args.SeparateValueIsInlineValue | crates/wc-cli/src/args.rs:28-60 | anywhere on any command line, a key followed by a value that is no flag means the same as the two joined by '=' |
| Args.MissingValueIsTrue | crates/wc-cli/src/args.rs:28-60 | a key at the end or before another flag means the same as giving it the value true |
| Args.RepeatedOrJoinedIsTheSame | crates/wc-cli/src/args.rs:89-102 | a flag given repeatedly and the same values joined by commas list the same items |
| Args.TrimIs | crates/wc-cli/src/args.rs:89-102 | trimming takes Unicode white space off both ends and nothing else |
| Args.SplitIs | crates/wc-cli/src/args.rs:89-102 | splitting cuts at every comma and only there: the pieces have none and join to the text |
| Args.CleanIs | crates/wc-cli/src/args.rs:89-102 | the items listed are exactly the non-empty trimmed pieces |
| Config.CommandLine.Apply | crates/wc-cli/src/config.rs:407-433 | filling in place gives, flag by flag, the command line's value, else a known file key's, else a known non-empty variable's, and nothing else |
| Config.LayeringIsIdempotent | crates/wc-cli/src/config.rs:407-433 | filling in twice changes nothing more |
| Config.FillingNeverChangesTheVerdict | crates/wc-cli/src/main.rs:680-753 | filling in keeps every given flag, adds only known ones, and the flag check accepts the result exactly when it accepted the command line, which is when every flag on it is an accepted or a global one |
| Config.SharedVariable | crates/wc-cli/src/config.rs:387-396 | two flags read one environment variable if and only if they differ only in case and in '-' for '_' |
| Config.VariableName | crates/wc-cli/src/config.rs:387-396 | the variable of a flag is WARDEN_CONNECT_ and the flag in capitals with '_' for '-', letter by letter |
| Tier.DeriveTier | crates/wc-control/src/admission.rs:702-776 | the loop and the escalations compute the closed form max(1, min(base, cap) - escalations), and the item shown to the approver is the first of the most sensitive; what the parts come to is in the rows of TierCases |
| Tier.Survey | crates/wc-control/src/admission.rs:725-738 | the item loop finds the least class, the first item at it, and whether any item is unbounded |
| Tier.SpansResidencyGroups | crates/wc-control/src/admission.rs:804-818 | collecting, sorting and deduplicating group numbers is true exactly when two jurisdictions are in different groups |
| Tier.Dedup | crates/wc-control/src/admission.rs:815-816 | dropping neighbouring duplicates of a sorted list keeps its members and makes it strictly ascending |
| Tier.GroupOf | crates/wc-control/src/admission.rs:807-814 | the group found holds the upper-cased jurisdiction and no earlier group does |
| Tier.BaseTier | crates/wc-control/src/admission.rs:710-715 | the base is the least tier of the declared data classes, and 2 when there are none; what each class is worth is in TierCases.OneDataClass |
| TierCases.OneDataClass | crates/wc-control/src/admission.rs:667-676 | an internal party declaring one data class and no more has tier 1 for restricted, pii, phi, pci or secret, 2 for confidential, 3 for internal, 4 for public, each in any case, and 2 for anything else |
| TierCases.OneItem | crates/wc-control/src/admission.rs:620-802 | a public party with one item, as a tool or a skill, named by name or id: class 1, 2 or 3 by the first list with a word in the name, else 1 or 2 by the description, 1 if hinted destructive; one step closer each for an outside zone and for a wildcard name or open, empty schema; never past 1 |
| TierCases.NamelessIsNoItem | crates/wc-control/src/admission.rs:680-694 | a document with neither name nor id is no item |
| TierCases.TwoJurisdictions | crates/wc-control/src/admission.rs:804-818 | two jurisdictions cost an internal public party without items one step exactly if, in capitals, the first groups that hold them exist and differ |
| TierLaws.MoreIsNeverLessSensitive | crates/wc-control/src/admission.rs:702-776 | more items, more jurisdictions, more data classes (beyond none) or a less trusted zone never give a less sensitive tier |
| TierLaws.OnlyTheSetsMatter | crates/wc-control/src/admission.rs:702-776 | order and repetition of items, data classes and jurisdictions do not matter |
| TierLaws.FirstDataClassesCanRelax | crates/wc-control/src/admission.rs:710-715 | declaring data classes where there were none relaxes the tier exactly when all of them and all items are milder than 2 and the escalations leave room |
| TierLaws.DeclaringPublicRelaxes | crates/wc-control/src/admission.rs:667-715 | a party with no items is tier 2 with no data class declared and tier 4 with public declared |
| TierLaws.AnnotationsNeverRelax | crates/wc-control/src/admission.rs:612-664 | over any surface, the tier with annotations is at least as sensitive as with all of them stripped |
| TierLaws.ReadOnlyHintChangesNothing | crates/wc-control/src/admission.rs:612-664 | over any surface, deleting every read-only hint changes no tier |
| TierNames.ExtendingAMatchNeverRelaxes | crates/wc-control/src/admission.rs:620-664 | a name that matches a keyword never gets a milder class by being extended on either side |
| TierNames.ClassIs | crates/wc-control/src/admission.rs:620-664 | since no keyword has a space, the combined search is a search of the name or of the description |
| TierNames.ExtendingRelaxesExactlyWhen | crates/wc-control/src/admission.rs:636-655 | extending a name relaxes its class exactly when it matched nothing, is not hinted destructive, and becomes a match milder than its description left it |
| TierNames.DefaultKeywordsAreWords | crates/wc-control/src/admission.rs:539-575 | the keywords in force satisfy the premise of the two laws above |
| TierNames.OneLetterRelaxes | crates/wc-control/src/admission.rs:539-664 | with the keywords in force, "ge" is class 2 and "get" is class 3 |
| Admission.Trail.Record | crates/wc-control/src/admission.rs:992-1023 | a stage passes, is refused without a trace, or is skipped with exactly one finding carrying its code |
| Admission.Admit | crates/wc-control/src/admission.rs:857-988 | for arbitrary verifier answers, the result is the first ground for refusal in pipeline order, and without any it is a full record: seven stages in order, the findings, and an entity with the verifiers' id, references and pin, the declared fields, the derived tier, the posture and its time |
| Admission.RefusalCodes | crates/wc-control/src/admission.rs:95-109 | with everything before it in order, an unproven identity, card or provenance is refused with 1001, 1003 or 1004 when enforcing, a blocked screening with 1005, and a tier more sensitive than asked for with 1006 |
| Admission.Establish | crates/wc-control/src/admission.rs:857-903 | stages one to four refuse on the first of their grounds, and otherwise leave exactly their four results and the findings of the unproven |
| Admission.Conclude | crates/wc-control/src/admission.rs:904-952 | stages five to seven refuse on the first of theirs, and otherwise add exactly their three results and the screener's findings |
| Admission.FullyAttestedMeans | crates/wc-control/src/admission.rs:170-188 | an admission is fully attested exactly when its posture is attested and screening took place, and then no stage was skipped; no admission has a degraded stage |
| Admission.SkippedStagesAreNotedOnce | crates/wc-control/src/admission.rs:992-1023 | of the first four stages, a skipped one has exactly one finding of its code beyond the screener's, a passed one none, and what was skipped does not deny in that mode |
| Admission.EnforcingAdmitsTheProven | crates/wc-core/src/error.rs:309-315 | enforcing admits exactly what observing admits with identity, card and provenance all verified |
| Sbom.ShippedIds | scripts/sbom.py:88-115 | on every graph, cyclic ones included, the worklist ends and returns exactly the packages reachable from a shipped root without dev-only edges, or fails exactly when there is no root |
| Sbom.BuildEdges | scripts/sbom.py:178-186 | edge lists are built exactly when every id is known, one per component, with exactly its shipped targets |
| Sbom.EdgesNeverDangle | scripts/sbom.py:244-252 | no edge lists built this way can trip the dangling-edge check |
| Sbom.FiltersDifferOnEmptyKinds | scripts/sbom.py:88-186 | every drawn dependency is followed, and the two filters differ exactly on an empty list of kinds |
| Sbom.NothingOrphanedExactlyWhen | scripts/sbom.py:178-186 | every shipped package is reachable over drawn edges if and only if no dependency with an empty kind list leads out of what is reachable over drawn edges |
| Sbom.NoEmptyKindsNoOrphans | scripts/sbom.py:178-186 | if no shipped package has such a dependency, the packages reachable over drawn edges are exactly the shipped ones |
| Sbom.EmptyKindsOrphan | scripts/sbom.py:178-186 | a graph in which a package ships and no drawn edge leads to it |
| Estate.BenchEstate | crates/wc-cli/src/main.rs:6511-6581 | the loops build exactly the specified parties and contracts, and each index lists a contract under a party exactly when the contract map does |
| Estate.EdgesJoinRegisteredParties | crates/wc-cli/src/main.rs:6511-6581 | every contract joins two different registered parties and none calls the hub |
| Estate.EveryPartyWithinTwoHops | crates/wc-cli/src/main.rs:6511-6581 | every party is within two hops of the hub if and only if there are at least five contracts |
| Estate.OneHopIsNotEnough | crates/wc-cli/src/main.rs:6511-6581 | some registered party is never within one hop |
| Gate.PercentileIsLeast | crates/wc-control/src/bench.rs:207-218 | the percentile of a sorted list is a sample and the least value with that share of samples at or below it |
| Gate.Measure | crates/wc-control/src/bench.rs:177-206 | a gate passes exactly when 99 percent of the samples met the threshold (or there were none, or no u64 exceeds it), and both reported percentiles split the samples where they should |
| Sorting.Sort | crates/wc-control/src/bench.rs:195 | sorting gives an ascending permutation |

## Left out

- Signing, hashing and JWS verification: SHA-256 is an arbitrary function, assumed injective only where a lemma says so.
- The inside of the store, containment, evidence chain, issuance and canonicalisation modules: their operations commit or fail. Of the register only the guards in `PlaneRegister.dfy` are modelled; it does not know connections minted or requests filed during a run, and policy, proofs, dual control and lapses are arbitrary functions.
- The policy read-write lock, metric counters, and the usage and persistence parts of an acknowledgement.
- The evidence row's `jti` in `revoke_connection`: claims are about the connection id.
- Dispatch order between threads is arbitrary, so nothing is claimed about fairness: that everything can finish is proved, that a scheduler lets it is not.
- HTTP, the MCP handshake, JSON and HTML rendering, metrics text, usage text and exit codes.
- Parsing of IP addresses and TOML by libraries, and `Config::parse` and `absorb`: the model starts from parsed addresses and tables.
- Admission.Admit: does not state the text of the tier rationale and of the stage verdicts, nor the entity's schema, lifecycle and re-attestation defaults, which are constants or follow from the tier.
- Zone trust levels: whether a zone is internal is an input.
- The component fields and the sorted order of the SBOM output, and `Report::passed`.
- Wall-clock timing in `measure`: the samples are an arbitrary list.
- Sorting.Sort: the standard library's in-place sort is modelled on sequences, so the order of its swaps is not captured.
- Der.RoundTrip: widths are below 127 bytes, since longer INTEGER lengths need a form the decoder does not read.
