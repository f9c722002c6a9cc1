# Email validator: a verified model of its decision core

This project models, in Dafny, the part of the email validator that decides
things. That is:

- the SMTP verification session `checkSMTP`, and the catch-all probe `checkCatchAll` beside it;
- the older catch-all probe `isCatchAllDomain`;
- the deliverability score and the `mx_domain` and `domainStatus` fragments of `validate`;
- the assembly of the per-level report `createOutput`;
- the typo suggestions;
- the SPF, DKIM and DMARC record selection and the security score;
- the choice of mail exchanger;
- role-account and free-provider detection;
- the pattern validator;
- the extra disposable-domain check;
- the final verdict `normalizeResult` and the rejection reason `getReason` of the HTTP server.

Everything that reaches the network is an input:

- the TCP socket is the stream of events the handlers see (`Socket.Event`);
- the DNS resolver is a zone of TXT answers;
- the Kickbox answer is a reply value;
- the random parts of the probe addresses are string parameters.

Each SMTP session of the source is a closure over a handful of variables that
its socket handlers update. It is modelled twice, and the two are tied together:

- As a pure transition function. `Step` gives the state after one event, and
  `Run` the state after a sequence of events. Lemmas over these state what
  every reachable session satisfies:
  - it is closed exactly when it has resolved;
  - its first verdict is final;
  - QUIT is written at most once;
  - the verdict is coherent with the reply code;
  - there are reply tables and concrete exchanges.
- As a class with one method per handler. Each method is proved to leave the
  object in `Step(old(State()), event)`.

Modules:

- `Text`: JavaScript string operations (`toLowerCase` on ASCII, `includes`,
  `startsWith`, `indexOf`, `split`, `join`).
- `Socket`: socket events.
- `Smtp`: `src/smtp/smtp.ts`.
- `CatchAll`: `src/catchAll/catchAll.ts`.
- `Deliverability`: `src/index.ts`.
- `Output`: `src/output/output.ts`.
- `TypoDetection`: `src/advancedTypoDetection/advancedTypoDetection.ts`.
- `DnsSecurity`: `src/dnsSecurityRecords/dnsSecurityRecords.ts`.
- `Dns`: `getBestMx` of `src/dns/dns.ts`.
- `RoleDetection`: `src/roleDetection/roleDetection.ts`.
- `FreeEmail`: `src/freeEmailDetection/freeEmailDetection.ts`.
- `PatternValidation`: `dist/emailPatternValidation/emailPatternValidation.js`.
- `ExtraDisposable`: `src/extraDisposableCheck/extraDisposableCheck.ts`.
- `Server`: `server.js`.

Behaviour of the code worth noting:

- The EHLO to HELO fallback is not bounded: each 502 to the first command
  rewrites command 0 and resets the cursor (`Smtp.FallbackIsUnbounded`).
- The older probe builds its test address as `test_<r1>@<r2>@<domain>`, which
  has two '@' signs (`CatchAll.TestEmailHasTwoAts`).
- The older probe classifies chunks by substring, not by reply code. A `553`
  answer to RCPT TO that follows a chunk holding "250" leaves the probe
  resolving true (`CatchAll.RejectedRcptStillAccepts`).
- The DMARC policy expression `/p=(\w+)/` also matches inside `sp=`
  (`DnsSecurity.SubdomainPolicyFirst`).
- The 15-point branch for a present but invalid SPF record cannot be taken,
  because a found SPF record is always marked valid (`DnsSecurity.SpfNeverHalf`).

## Model

| member | source | states |
|---|---|---|
| Smtp.ExtractCode | src/smtp/smtp.ts:68-72 | A code exists exactly when the reply starts with three decimal digits; it is their decimal value, below 1000 |
| Smtp.ExtractCodeOfReply | src/smtp/smtp.ts:68-72 | A reply made of a three-digit code and any text yields that code |
| Smtp.ExtractCodeIgnoresRest | src/smtp/smtp.ts:68-72 | Text after the first three characters never changes the code |
| Smtp.SomeIncluded | src/smtp/smtp.ts:76 | True exactly when some fragment of the list occurs in the string |
| Smtp.IsBlockingService | src/smtp/smtp.ts:74-77 | True exactly when the lower-cased exchange contains one of the `BLOCKING_SERVICES` fragments |
| Smtp.BlockingServiceMatch | src/smtp/smtp.ts:41-55 | A Proofpoint-hosted exchange is a blocking service |
| Smtp.BlockingServiceNoMatch | src/smtp/smtp.ts:41-55 | An ordinary exchange is not |
| Smtp.BlockingServiceIgnoresCase | src/smtp/smtp.ts:75 | The test gives the same answer for the exchange and its lower-cased form |
| Smtp.Accepted | src/smtp/smtp.ts:159-166 | The all-commands-answered verdict: valid, `accepted_email`, not blocked, with the last code, or 250 when that is absent or 0 |
| Smtp.Rejection | src/smtp/smtp.ts:199-252 | `mailbox_not_found` exactly for 550/551/553 and `mailbox_full` exactly for 552, otherwise `smtp_error`; blocked exactly for `smtp_error`; valid exactly for 552; the code is kept |
| Smtp.Start | src/smtp/smtp.ts:86-151 | A new session is open and unresolved, has written nothing, and queues EHLO, MAIL FROM and RCPT TO |
| Smtp.Finished | src/smtp/smtp.ts:96-106 | `finish` closes the session; the promise keeps the first verdict it was given |
| Smtp.Advanced | src/smtp/smtp.ts:153-168 | `sendNext` keeps the three commands and a cursor of at most three |
| Smtp.Replied | src/smtp/smtp.ts:173-253 | The data handler keeps the session well formed |
| Smtp.Step | src/smtp/smtp.ts:108-144 | Every handler keeps the session well formed |
| Smtp.Run | src/smtp/smtp.ts:108-253 | Any event sequence keeps the session well formed |
| Smtp.StartInv | src/smtp/smtp.ts:86-94 | A new session satisfies the session invariant: commands are the protocol's three (the first EHLO or HELO); closed exactly when resolved; a coherent verdict; at most one QUIT; a closed socket not writable |
| Smtp.FinishedInv | src/smtp/smtp.ts:96-106 | `finish` with a coherent verdict preserves the invariant, writing QUIT at most once |
| Smtp.AdvancedInv | src/smtp/smtp.ts:153-168 | `sendNext` preserves the invariant |
| Smtp.StepInv | src/smtp/smtp.ts:108-253 | Every handler preserves the invariant |
| Smtp.RunInv | src/smtp/smtp.ts:108-253 | Every event sequence preserves the invariant |
| Smtp.ReachableInv | src/smtp/smtp.ts:81-256 | Every reachable session satisfies the invariant: its verdict is coherent and it writes QUIT at most once |
| Smtp.VerdictIsFinal | src/smtp/smtp.ts:96-106 | Once resolved, no later event changes the verdict |
| Smtp.TeardownEvents | src/smtp/smtp.ts:108-144 | `error`, `timeout` and `close` on an open session resolve "could not verify", change nothing on a closed one, and leave the socket closed and not writable |
| Smtp.ReplyTable | src/smtp/smtp.ts:173-253 | The full reply table of the data handler: no code or 220/250/251 sends the next command or accepts; 502 after the first command switches to HELO and resends; 502 at any other time, 421/450/451/452, 554 and unknown codes give blocked `smtp_error`; 550/551/553 give `mailbox_not_found`; 552 gives valid `mailbox_full`; each carries its code |
| Smtp.StepCursor | src/smtp/smtp.ts:153-168 | One event moves the cursor by at most one reply; an acceptance comes only from a reply that arrives with the cursor past RCPT TO |
| Smtp.RunCursor | src/smtp/smtp.ts:153-168 | Over a sequence, the cursor moves at most once per data event, and an acceptance needs the cursor to reach four |
| Smtp.AcceptedNeedsFourReplies | src/smtp/smtp.ts:170-190 | No session reports `accepted_email` before its fourth data event |
| Smtp.FourAdvancingRepliesAccept | src/smtp/smtp.ts:170-190 | Four advancing replies (the greeting and one per command) accept with the last code, writing exactly EHLO, MAIL FROM, RCPT TO and QUIT |
| Smtp.FallbackRepeats | src/smtp/smtp.ts:192-197 | Each further 502 to the first command writes HELO again, resets the cursor and leaves the session unresolved |
| Smtp.FallbackIsUnbounded | src/smtp/smtp.ts:192-197 | After the greeting, any number of 502 replies keeps the session unresolved, writing EHLO and then one HELO per reply |
| Smtp.RunAppend | src/smtp/smtp.ts:170-253 | Running two event sequences one after the other is running their concatenation |
| Smtp.RcptRejected | src/smtp/smtp.ts:200-207 | Three advancing replies and then 550 report `mailbox_not_found` with code 550, and QUIT is still sent |
| Smtp.ScenarioAccepted | src/smtp/smtp.ts:159-166 | "220" then three "250" accept with code 250 |
| Smtp.ScenarioSilentServer | src/smtp/smtp.ts:133-144 | A timeout before any reply, connected or not, gives "could not verify" |
| Smtp.SmtpSession.constructor | src/smtp/smtp.ts:86-94 | The object holds the start state of a session |
| Smtp.SmtpSession.Finish | src/smtp/smtp.ts:96-106 | Updates its fields to `Finished` of the old state |
| Smtp.SmtpSession.SendNext | src/smtp/smtp.ts:153-168 | Updates its fields to `Advanced` of the old state |
| Smtp.SmtpSession.OnConnect | src/smtp/smtp.ts:170-173 | Keeps the invariant and moves to `Step(old, Connect)` |
| Smtp.SmtpSession.OnData | src/smtp/smtp.ts:173-253 | Keeps the invariant and moves to `Step(old, Data(chunk))`, running the source's if-chain on the object's fields |
| Smtp.SmtpSession.OnError | src/smtp/smtp.ts:108-119 | Keeps the invariant and moves to `Step(old, Error)` |
| Smtp.SmtpSession.OnClose | src/smtp/smtp.ts:121-131 | Keeps the invariant and moves to `Step(old, Close)` |
| Smtp.SmtpSession.OnTimeout | src/smtp/smtp.ts:133-144 | Keeps the invariant and moves to `Step(old, Timeout)` |
| Smtp.SmtpSession.OnEnded | src/smtp/smtp.ts:98 | The socket stops being writable; the invariant is kept |
| Smtp.SmtpSession.OnDestroyed | src/smtp/smtp.ts:98 | The socket is destroyed; the invariant is kept |
| Smtp.FakeEmail | src/smtp/smtp.ts:260 | The synthetic recipient starts with `nonexistent_test_` and ends with `@` and the domain |
| Smtp.ProbeStart | src/smtp/smtp.ts:262-289 | A new probe is unresolved and has written nothing |
| Smtp.ProbeFinished | src/smtp/smtp.ts:270-278 | `finish` closes the probe, and the promise keeps its first value |
| Smtp.ProbeReplied | src/smtp/smtp.ts:292-309 | The data handler keeps the commands and a cursor of at most three |
| Smtp.ProbeStep | src/smtp/smtp.ts:280-309 | Every handler keeps the probe well formed |
| Smtp.ProbeRun | src/smtp/smtp.ts:280-309 | Any event sequence keeps the probe well formed |
| Smtp.ProbeStartInv | src/smtp/smtp.ts:262-289 | A new probe satisfies the probe invariant: closed exactly when resolved; at most one QUIT; commands written in order while open; true only after all three were sent |
| Smtp.ProbeFinishedInv | src/smtp/smtp.ts:270-278 | `finish` preserves the invariant when true is given only after three commands |
| Smtp.ProbeStepInv | src/smtp/smtp.ts:280-309 | Every handler preserves the probe invariant |
| Smtp.ProbeRunInv | src/smtp/smtp.ts:280-309 | Every event sequence preserves the probe invariant |
| Smtp.ProbeTrueMeansAllSent | src/smtp/smtp.ts:295-301 | A probe answers true only after sending EHLO, MAIL FROM and RCPT TO for the synthetic address, and writes QUIT at most once |
| Smtp.ProbeVerdictIsFinal | src/smtp/smtp.ts:270-278 | Once resolved, no later event changes the answer |
| Smtp.ProbeOutcomes | src/smtp/smtp.ts:280-309 | On an open probe: a success code sends the next command, or answers true after the third; any other reply, error, timeout or close answers false |
| Smtp.ProbeScenarios | src/smtp/smtp.ts:292-309 | After three success replies, the fourth decides: true exactly when it carries a success code; EHLO, MAIL FROM, RCPT TO and QUIT are written |
| Smtp.CatchAllSession.constructor | src/smtp/smtp.ts:259-289 | The object holds the start state of a probe for the synthetic recipient |
| Smtp.CatchAllSession.Finish | src/smtp/smtp.ts:270-278 | Updates its fields to `ProbeFinished` of the old state |
| Smtp.CatchAllSession.OnConnect | src/smtp/smtp.ts:291-292 | Keeps the invariant and moves to `ProbeStep(old, Connect)` |
| Smtp.CatchAllSession.OnData | src/smtp/smtp.ts:292-309 | Keeps the invariant and moves to `ProbeStep(old, Data(chunk))` |
| Smtp.CatchAllSession.OnError | src/smtp/smtp.ts:280 | Keeps the invariant and moves to `ProbeStep(old, Error)` |
| Smtp.CatchAllSession.OnTimeout | src/smtp/smtp.ts:281 | Keeps the invariant and moves to `ProbeStep(old, Timeout)` |
| Smtp.CatchAllSession.OnClose | src/smtp/smtp.ts:282 | Keeps the invariant and moves to `ProbeStep(old, Close)` |
| Smtp.CatchAllSession.OnEnded | src/smtp/smtp.ts:272 | The socket stops being writable; the invariant is kept |
| Smtp.CatchAllSession.OnDestroyed | src/smtp/smtp.ts:272 | The socket is destroyed; the invariant is kept |
| CatchAll.TestEmail | src/catchAll/catchAll.ts:24-25 | The test address starts with `test_` and ends with `@` and the domain |
| CatchAll.TestEmailHasTwoAts | src/catchAll/catchAll.ts:24-25 | With '@'-free random parts and domain, the test address has exactly two '@' |
| CatchAll.Classified | src/catchAll/catchAll.ts:91-103 | A chunk holding "250" sets acceptance; one holding "550" but neither "250" nor "220" clears it; any other leaves it |
| CatchAll.Start | src/catchAll/catchAll.ts:22-66 | A new probe is unresolved, not accepted, with its `once('fail')` listener attached |
| CatchAll.TornDown | src/catchAll/catchAll.ts:44-62 | The shared listener body closes the probe, and the promise keeps its first value |
| CatchAll.Failed | src/catchAll/catchAll.ts:44-52 | `fail` resolves false the first time and is a no-op afterwards |
| CatchAll.Nexted | src/catchAll/catchAll.ts:68-79 | `next` keeps the commands and a cursor of at most three |
| CatchAll.Step | src/catchAll/catchAll.ts:34-104 | Every listener keeps the probe well formed |
| CatchAll.Run | src/catchAll/catchAll.ts:34-104 | Any event sequence keeps the probe well formed |
| CatchAll.StartInv | src/catchAll/catchAll.ts:22-66 | A new probe satisfies the invariant: closed exactly when resolved; `fail` detached only once closed; at most one quit; commands written in order while open |
| CatchAll.TornDownInv | src/catchAll/catchAll.ts:44-62 | Tearing down restores the invariant |
| CatchAll.NextedInv | src/catchAll/catchAll.ts:68-79 | `next` preserves the invariant |
| CatchAll.StepInv | src/catchAll/catchAll.ts:34-104 | Every listener preserves the invariant |
| CatchAll.RunInv | src/catchAll/catchAll.ts:34-104 | Every event sequence preserves the invariant |
| CatchAll.ReachableInv | src/catchAll/catchAll.ts:17-107 | Every reachable probe satisfies the invariant and writes quit at most once |
| CatchAll.ResolvedIsFinal | src/catchAll/catchAll.ts:44-62 | Once resolved, no later event changes the answer |
| CatchAll.FailPaths | src/catchAll/catchAll.ts:34-42 | Error, timeout or close on an open probe resolve false; so does a reply arriving when the socket is no longer writable and commands remain |
| CatchAll.DataAlwaysNexts | src/catchAll/catchAll.ts:85-104 | Every reply on a connected, writable probe sends the next command, whatever it says |
| CatchAll.RunOfData | src/catchAll/catchAll.ts:85-104 | A run of replies sends that many commands in order, and acceptance is the chunks' classification folded from the start value |
| CatchAll.FourChunksResolve | src/catchAll/catchAll.ts:68-104 | Four replies on a writable socket send the three commands and quit, and resolve with the classification of all four chunks |
| CatchAll.AcceptedAfterSnoc | src/catchAll/catchAll.ts:91-103 | Folding one more chunk applies its classification to the fold so far |
| CatchAll.RunAppend | src/catchAll/catchAll.ts:34-104 | Running two event sequences one after the other is running their concatenation |
| CatchAll.MixedChunkAccepts | src/catchAll/catchAll.ts:91-95 | A chunk holding both "550" and "250" counts as accepted |
| CatchAll.NeutralLastReplyKeepsAcceptance | src/catchAll/catchAll.ts:91-103 | If the third reply holds "250" and the fourth holds none of the three markers, the probe resolves true |
| CatchAll.RejectedRcptStillAccepts | src/catchAll/catchAll.ts:91-103 | So "220", "250", "250", then "553 bad address" to RCPT TO resolves true |
| CatchAll.AcceptedAfterLastTwo | src/catchAll/catchAll.ts:91-103 | A chunk with "250" followed by a neutral one leaves the fold accepted |
| CatchAll.LastReplyIsNeutral | src/catchAll/catchAll.ts:91-103 | "553 bad address" holds none of "220", "250", "550" |
| CatchAll.CatchAllProbe.constructor | src/catchAll/catchAll.ts:22-66 | The object holds the start state for the test address |
| CatchAll.CatchAllProbe.Fail | src/catchAll/catchAll.ts:44-52 | Updates its fields to `Failed` of the old state |
| CatchAll.CatchAllProbe.Success | src/catchAll/catchAll.ts:54-62 | Updates its fields to `TornDown` of the old state |
| CatchAll.CatchAllProbe.Next | src/catchAll/catchAll.ts:68-79 | Updates its fields to `Nexted` of the old state |
| CatchAll.CatchAllProbe.OnConnect | src/catchAll/catchAll.ts:85-86 | Keeps the invariant and moves to `Step(old, Connect)` |
| CatchAll.CatchAllProbe.OnData | src/catchAll/catchAll.ts:86-104 | Keeps the invariant and moves to `Step(old, Data(chunk))` |
| CatchAll.CatchAllProbe.OnError | src/catchAll/catchAll.ts:34-36 | Keeps the invariant and moves to `Step(old, Error)` |
| CatchAll.CatchAllProbe.OnClose | src/catchAll/catchAll.ts:38-42 | Keeps the invariant and moves to `Step(old, Close)` |
| CatchAll.CatchAllProbe.OnTimeout | src/catchAll/catchAll.ts:81-83 | Keeps the invariant and moves to `Step(old, Timeout)` |
| CatchAll.CatchAllProbe.OnEnded | src/catchAll/catchAll.ts:46 | The socket stops being writable; the invariant is kept |
| CatchAll.CatchAllProbe.OnDestroyed | src/catchAll/catchAll.ts:46 | The socket is destroyed; the invariant is kept |
| Text.Clamp | src/index.ts:87 | The result lies in [0, 100], equals the input when that does, and is the nearer bound otherwise (also the clamp of emailPatternValidation.js line 100) |
| Deliverability.Score | src/index.ts:22-88 | The score always lies in [0, 100] |
| Deliverability.CalculateDeliverabilityScore | src/index.ts:22-88 | The method's if-chain computes `Score` |
| Deliverability.AccumulateFactors | src/index.ts:32-85 | Past the disqualifiers, the `+=` chain from 50 computes the raw sum |
| Deliverability.EarlyExits | src/index.ts:26-36 | Disposable gives 0, then typo 5, then more than five breaches 10, then a missing MX record or MX domain 0, in that order |
| Deliverability.RawBounds | src/index.ts:32-85 | Past the disqualifiers, the raw sum lies in [22, 108], so only the upper clamp can act |
| Deliverability.SpfPoints | src/index.ts:39-85 | SPF adds 8, plus 5 for a corporate domain that also has DKIM and DMARC |
| Deliverability.DkimPoints | src/index.ts:40-85 | DKIM adds 9, plus the same 5 for the full posture |
| Deliverability.DmarcPoints | src/index.ts:41-85 | DMARC adds 8, plus the same 5 for the full posture |
| Deliverability.SmtpVerifiedPoints | src/index.ts:63-68 | A verified SMTP check adds 10, and `smtpBlocked` then adds nothing |
| Deliverability.SmtpBlockedPoints | src/index.ts:63-68 | `smtpBlocked` alone adds 8 |
| Deliverability.RolePenalty | src/index.ts:53-55 | A role account costs 8 |
| Deliverability.AcceptAllPenalty | src/index.ts:58-60 | An accept-all domain costs 15 |
| Deliverability.ReputationBands | src/index.ts:76-80 | Reputation above 60 adds 5, below 30 costs 10, and 30 to 60 changes nothing |
| Deliverability.NoBreachBonus | src/index.ts:71-73 | Not breached with a zero count adds 3 |
| Deliverability.ScoreExtremes | src/index.ts:22-88 | The best address that passes the disqualifiers scores 100, and the worst scores 22 |
| Deliverability.MxDomain | src/index.ts:234-239 | `mx_domain` is a suffix of the exchange that is the whole exchange or follows a dot, and holds one dot exactly when the exchange holds one (the last two labels) |
| Deliverability.MxDomainUnique | src/index.ts:234-239 | No other suffix has those properties, so they determine `slice(-2).join('.')` |
| Deliverability.DomainStatusOf | src/index.ts:339-345 | Disposable exactly when disposable; free exactly when free and not disposable; corporate otherwise |
| Output.Index | src/output/output.ts:3 | Every level has a position in `OrderedLevels` |
| Output.IndexOfOrdered | src/output/output.ts:3 | The position of the level at position k is k |
| Output.IndexInjective | src/output/output.ts:3 | Distinct levels have distinct positions |
| Output.CreateOutput | src/output/output.ts:49-71 | The other fields are copied from the enriched data; a failing level invalidates the report and becomes its reason; otherwise `valid` and `reason` come from the enriched data (default true); the validators are `Validators` |
| Output.EveryEntryIsValidators | src/output/output.ts:59-69 | A map giving every level its entry is the validators object |
| Output.ValidatorsHaveEveryLevel | src/output/output.ts:59-69 | Every level has an entry |
| Output.ValidatorsCases | src/output/output.ts:59-69 | Without a failing level every entry is valid with no reason; otherwise levels before it are valid with no reason, it is invalid with the given reason, and those after are invalid with no reason |
| Output.ValidityIsMonotone | src/output/output.ts:59-69 | Along `OrderedLevels`, once an entry is invalid, every later one is too |
| Output.AtMostOneReason | src/output/output.ts:62-67 | Only the failing level's entry can carry a reason |
| TypoDetection.Min3 | src/advancedTypoDetection/advancedTypoDetection.ts:27-31 | The minimum of three, which is one of them |
| TypoDetection.LevenshteinDistance | src/advancedTypoDetection/advancedTypoDetection.ts:16-36 | The matrix method returns the edit distance `Dist` |
| TypoDetection.FillRow | src/advancedTypoDetection/advancedTypoDetection.ts:25-32 | One inner loop fills row j with the distances of the prefixes |
| TypoDetection.DStep | src/advancedTypoDetection/advancedTypoDetection.ts:26-31 | The prefix distance follows the matrix recurrence |
| TypoDetection.DistToEmpty | src/advancedTypoDetection/advancedTypoDetection.ts:21-22 | The distance to the empty string is the other length, both ways |
| TypoDetection.DSymmetric | src/advancedTypoDetection/advancedTypoDetection.ts:24-33 | The prefix distance is symmetric |
| TypoDetection.DistSymmetric | src/advancedTypoDetection/advancedTypoDetection.ts:16-36 | The distance is symmetric |
| TypoDetection.DZeroIffEqual | src/advancedTypoDetection/advancedTypoDetection.ts:24-33 | A prefix distance is 0 exactly for equal prefixes |
| TypoDetection.DistZeroIffEqual | src/advancedTypoDetection/advancedTypoDetection.ts:16-36 | The distance is 0 exactly for equal strings |
| TypoDetection.DUpper | src/advancedTypoDetection/advancedTypoDetection.ts:24-33 | A prefix distance is at most the longer prefix length |
| TypoDetection.DLower | src/advancedTypoDetection/advancedTypoDetection.ts:24-33 | A prefix distance is at least the difference of the prefix lengths |
| TypoDetection.DistBounds | src/advancedTypoDetection/advancedTypoDetection.ts:16-36 | The distance lies between the length difference and the longer length |
| TypoDetection.Candidates | src/advancedTypoDetection/advancedTypoDetection.ts:124-129 | Every pushed entry is a candidate at distance 1 or 2, with that distance recorded |
| TypoDetection.CandidatesComplete | src/advancedTypoDetection/advancedTypoDetection.ts:124-129 | Every candidate at distance 1 or 2 is pushed |
| TypoDetection.InsertElements | src/advancedTypoDetection/advancedTypoDetection.ts:131 | Insertion adds exactly the one element |
| TypoDetection.InsertSorted | src/advancedTypoDetection/advancedTypoDetection.ts:131 | Insertion keeps a distance-sorted list sorted |
| TypoDetection.InsertWithDistance | src/advancedTypoDetection/advancedTypoDetection.ts:131 | Insertion puts the element first among the entries of its distance |
| TypoDetection.SortSortsAndPermutes | src/advancedTypoDetection/advancedTypoDetection.ts:131 | The sort by distance returns a sorted permutation of its input |
| TypoDetection.SortIsStable | src/advancedTypoDetection/advancedTypoDetection.ts:131 | The sort is stable: the entries of each distance keep their order |
| TypoDetection.Domains | src/advancedTypoDetection/advancedTypoDetection.ts:131 | The `map` keeps length and takes each entry's domain |
| TypoDetection.GetSuggestedDomains | src/advancedTypoDetection/advancedTypoDetection.ts:115-132 | The method's loop, sort and map compute `SuggestedDomains` |
| TypoDetection.SuggestionsAreTheNearDomains | src/advancedTypoDetection/advancedTypoDetection.ts:115-132 | The suggestions are exactly the common domains at distance 1 or 2, never the domain itself |
| TypoDetection.SortedCandidatesAreNear | src/advancedTypoDetection/advancedTypoDetection.ts:124-131 | After sorting, every domain is a candidate at distance 1 or 2 |
| TypoDetection.SortedCandidatesComplete | src/advancedTypoDetection/advancedTypoDetection.ts:124-131 | After sorting, every candidate at distance 1 or 2 is still present |
| TypoDetection.SuggestionsOrdered | src/advancedTypoDetection/advancedTypoDetection.ts:131 | The suggestions are ordered by distance; those at the same distance keep the list order |
| TypoDetection.Lookup | src/advancedTypoDetection/advancedTypoDetection.ts:77 | Absent exactly when no entry has the key; a found value belongs to an entry with that key |
| TypoDetection.LookupFirstKey | src/advancedTypoDetection/advancedTypoDetection.ts:77 | A key held by no earlier entry looks up to its own value |
| TypoDetection.Keys | src/advancedTypoDetection/advancedTypoDetection.ts:82 | `Object.keys` lists the keys in entry order |
| TypoDetection.CommonTyposTruthy | src/advancedTypoDetection/advancedTypoDetection.ts:55-75 | Every key and every correction of `commonTypos` is non-empty |
| TypoDetection.BestKeyUnique | src/advancedTypoDetection/advancedTypoDetection.ts:86-92 | At most one key is the best match: the first at the least distance, which is at most 2 |
| TypoDetection.BestKeyExists | src/advancedTypoDetection/advancedTypoDetection.ts:86-92 | Either no key is within distance 2, or a best key exists |
| TypoDetection.BestMatch | src/advancedTypoDetection/advancedTypoDetection.ts:83-92 | The loop with a strict `<` returns the best key, or "" exactly when no key is within distance 2 |
| TypoDetection.Suggest | src/advancedTypoDetection/advancedTypoDetection.ts:77-99 | A direct hit gives its correction; otherwise the correction of the best key; none when no key is near |
| TypoDetection.CheckTypoWithSuggestion | src/advancedTypoDetection/advancedTypoDetection.ts:41-110 | No base typo gives `isTypo` false; an address without '@' throws; otherwise `isTypo` true, with `local@correction` when a suggestion exists |
| TypoDetection.NoAtThrows | src/advancedTypoDetection/advancedTypoDetection.ts:52 | An address without '@' splits into one piece |
| DnsSecurity.FindSpf | src/dnsSecurityRecords/dnsSecurityRecords.ts:39-41 | The position of the first record whose joined chunks start with `v=spf1`, absent when none does |
| DnsSecurity.CheckSpf | src/dnsSecurityRecords/dnsSecurityRecords.ts:36-55 | Exists exactly when some record starts with `v=spf1`; it is then the first such record, joined, and valid; a failed lookup gives absent and invalid |
| DnsSecurity.Flatten | src/dnsSecurityRecords/dnsSecurityRecords.ts:68 | No records join to the empty string |
| DnsSecurity.CheckDkim | src/dnsSecurityRecords/dnsSecurityRecords.ts:60-76 | Exists exactly when the lookup returned some record; the record is all of them joined |
| DnsSecurity.DkimName | src/dnsSecurityRecords/dnsSecurityRecords.ts:62 | The queried name is `<selector>._domainkey.` followed by the domain |
| DnsSecurity.WordRun | src/dnsSecurityRecords/dnsSecurityRecords.ts:90 | The greedy `\w+` capture: a maximal run of word characters at the position |
| DnsSecurity.FirstPolicyAt | src/dnsSecurityRecords/dnsSecurityRecords.ts:90 | The leftmost position from which `p=` and a word character follow, absent when there is none |
| DnsSecurity.PolicyFrom | src/dnsSecurityRecords/dnsSecurityRecords.ts:90-91 | The capture is absent exactly when there is no match; otherwise it is the word run after the leftmost match |
| DnsSecurity.Policy | src/dnsSecurityRecords/dnsSecurityRecords.ts:90-91 | A captured policy is non-empty |
| DnsSecurity.CheckDmarc | src/dnsSecurityRecords/dnsSecurityRecords.ts:81-104 | Exists exactly when the lookup returned some record; it carries all records joined and the policy captured from them |
| DnsSecurity.TagPolicy | src/dnsSecurityRecords/dnsSecurityRecords.ts:90-91 | With no 'p' before it, `p=<word>` yields that word |
| DnsSecurity.VersionThenPolicy | src/dnsSecurityRecords/dnsSecurityRecords.ts:90-91 | `v=DMARC1; p=<word>...` yields that word |
| DnsSecurity.SubdomainPolicyFirst | src/dnsSecurityRecords/dnsSecurityRecords.ts:90-91 | An `sp=` tag placed first is taken as the policy |
| DnsSecurity.NoPolicy | src/dnsSecurityRecords/dnsSecurityRecords.ts:91 | A record without `p=` has no policy |
| DnsSecurity.PolicySkip | src/dnsSecurityRecords/dnsSecurityRecords.ts:90 | Positions without a match do not change the leftmost match |
| DnsSecurity.WordRunOf | src/dnsSecurityRecords/dnsSecurityRecords.ts:90 | A word of word characters that ends where the run stops is the run |
| DnsSecurity.WordRunAll | src/dnsSecurityRecords/dnsSecurityRecords.ts:90 | A run that reaches the end is the whole rest |
| DnsSecurity.CheckDnsSecurityRecords | src/dnsSecurityRecords/dnsSecurityRecords.ts:109-132 | SPF and DMARC come from the domain's own lookups; DKIM is absent exactly when no selector has records, else it comes from the first selector in order that has them |
| DnsSecurity.SecurityPoints | src/dnsSecurityRecords/dnsSecurityRecords.ts:137-163 | The score lies in [0, 100] |
| DnsSecurity.GetDomainSecurityScore | src/dnsSecurityRecords/dnsSecurityRecords.ts:137-163 | The method's `+=` chain computes `SecurityPoints`, in [0, 100] |
| DnsSecurity.SpfNeverHalf | src/dnsSecurityRecords/dnsSecurityRecords.ts:141-145 | On checked records, SPF adds 30 points or none, never 15 |
| DnsSecurity.FailedLookupsAreAbsent | src/dnsSecurityRecords/dnsSecurityRecords.ts:52-54 | Any failed lookup leaves its record absent |
| DnsSecurity.FullScore | src/dnsSecurityRecords/dnsSecurityRecords.ts:137-163 | The full 100 holds exactly with valid SPF, DKIM, DMARC and a `reject` policy |
| Dns.GetBestMx | src/dns/dns.ts:35-50 | Absent exactly for an empty list; otherwise a record of the list with the least priority, and the first of those |
| RoleDetection.AnyRoleIffExists | src/roleDetection/roleDetection.ts:81-84 | `some` holds exactly when some role of the list matches |
| RoleDetection.GetRoleType | src/roleDetection/roleDetection.ts:90-105 | A role exactly when `isRoleEmail` holds; it is the first role, in list order, that matches |
| RoleDetection.FirstRole | src/roleDetection/roleDetection.ts:95-101 | The loop returns the first matching role, or none when no role matches |
| RoleDetection.EmptyLocalPartIsNoRole | src/roleDetection/roleDetection.ts:78 | With non-empty roles, an empty local part matches none |
| RoleDetection.RolesAreNonEmpty | src/roleDetection/roleDetection.ts:6-73 | No role name is empty |
| RoleDetection.IsRoleEmail | src/roleDetection/roleDetection.ts:75-88 | `isRoleEmail` holds exactly when some role matches the local part; the early return for an empty local part changes nothing |
| RoleDetection.CaseInsensitive | src/roleDetection/roleDetection.ts:77 | The local part and the verdict are the same for the address and its lower-cased form |
| RoleDetection.LocalPartOf | src/roleDetection/roleDetection.ts:77 | The local part of `name@domain`, for a lower-case name without '@', is the name |
| RoleDetection.SplitAt | src/roleDetection/roleDetection.ts:77 | The first piece of `a@b`, for `a` without '@', is `a` |
| RoleDetection.RoleWithDigits | src/roleDetection/roleDetection.ts:82-83 | A role followed by decimal digits matches it |
| RoleDetection.NonDigitEnd | src/roleDetection/roleDetection.ts:82-83 | A local part ending in a non-digit matches a role only by equalling it |
| RoleDetection.NonDigitEndRole | src/roleDetection/roleDetection.ts:81-84 | Such a local part is a role address exactly when it is in the list |
| RoleDetection.Admin12IsRole | src/roleDetection/roleDetection.ts:81-84 | "admin12" is a role local part |
| RoleDetection.SysadminIsNoRole | src/roleDetection/roleDetection.ts:81-84 | "sysadmin" is not a role local part: the match is anchored |
| RoleDetection.DottedIsNoRole | src/roleDetection/roleDetection.ts:81-84 | "admin.x" is not a role local part |
| RoleDetection.SysadminNotListed | src/roleDetection/roleDetection.ts:6-73 | "sysadmin" is not in the list |
| RoleDetection.DottedNotListed | src/roleDetection/roleDetection.ts:6-73 | "admin.x" is not in the list |
| FreeEmail.IsFreeEmail | src/freeEmailDetection/freeEmailDetection.ts:60-62 | A free domain holds a dot and no '@', whatever its case, so a whole address is never free |
| FreeEmail.GetEmailProvider | src/freeEmailDetection/freeEmailDetection.ts:64-66 | `free` exactly for a free domain |
| FreeEmail.GetProviderName | src/freeEmailDetection/freeEmailDetection.ts:71-96 | The mapped name for a known domain (any case); the generic name for any other free domain; none otherwise |
| FreeEmail.ProviderNamesAreNonEmpty | src/freeEmailDetection/freeEmailDetection.ts:75-93 | Every mapped name is non-empty, so the `||` takes it |
| FreeEmail.ProviderMapKeysAreFree | src/freeEmailDetection/freeEmailDetection.ts:6-93 | Every domain with a display name is a free provider |
| FreeEmail.ProviderNameIffFree | src/freeEmailDetection/freeEmailDetection.ts:60-96 | A name is given exactly for free domains |
| FreeEmail.CaseInsensitive | src/freeEmailDetection/freeEmailDetection.ts:60-62 | Both lookups give the same answer for the domain and its lower-cased form |
| PatternValidation.SpecialCount | dist/emailPatternValidation/emailPatternValidation.js:42-46 | The count of special characters is at most the length |
| PatternValidation.CheckLocalPart | dist/emailPatternValidation/emailPatternValidation.js:14-54 | The block reports exactly the local-part issues and warnings whose conditions hold, and moves the score by their points |
| PatternValidation.CheckDomain | dist/emailPatternValidation/emailPatternValidation.js:56-92 | The block reports exactly the domain issues and warnings whose conditions hold, and moves the score by their points |
| PatternValidation.Collect | dist/emailPatternValidation/emailPatternValidation.js:93-106 | Valid exactly without issues; the score is 100 plus the blocks' moves, minus 20 for a format mismatch, clamped; exactly the issues and warnings whose conditions hold |
| PatternValidation.ValidateEmailPattern | dist/emailPatternValidation/emailPatternValidation.js:8-107 | Valid exactly without issues; the score lies in [0, 100]; it reports exactly the issues and warnings whose conditions hold for the address |
| PatternValidation.NoIssueInIff | dist/emailPatternValidation/emailPatternValidation.js:14-98 | No issue holds exactly when no issue condition of a present part holds and the format matches; warnings never matter |
| PatternValidation.ValidIffNoIssue | dist/emailPatternValidation/emailPatternValidation.js:101-102 | The same for a whole address |
| PatternValidation.TwoAtsNeverMatch | dist/emailPatternValidation/emailPatternValidation.js:94-98 | An address with two '@' fails the format and reports it |
| PatternValidation.ThirdSegmentIgnored | dist/emailPatternValidation/emailPatternValidation.js:12 | Only the first two '@'-segments are checked |
| PatternValidation.SplitAfter | dist/emailPatternValidation/emailPatternValidation.js:12 | Splitting `a@b`, for `a` without '@', gives `a` and then the pieces of `b` |
| ExtraDisposable.DigitRun | src/extraDisposableCheck/extraDisposableCheck.ts:57 | The greedy `[0-9]*`: a maximal run of digits at the start |
| ExtraDisposable.CheckExtraDisposableSources | src/extraDisposableCheck/extraDisposableCheck.ts:6-80 | Kickbox "disposable" first (95); then the known list, any case (100); then the name pattern (85); otherwise not disposable with no source and 0; disposable exactly when confidence and source are set |
| ExtraDisposable.KickboxFailureSwallowed | src/extraDisposableCheck/extraDisposableCheck.ts:29-32 | A failed Kickbox call gives the same result as a "not disposable" answer |
| ExtraDisposable.KickboxComesFirst | src/extraDisposableCheck/extraDisposableCheck.ts:20-27 | A Kickbox hit decides regardless of the domain; the local checks never name Kickbox |
| ExtraDisposable.PatternPrefix | src/extraDisposableCheck/extraDisposableCheck.ts:57 | Any pattern word, digits, a dot and a pattern TLD at the start match, whatever follows |
| ExtraDisposable.WordsAreLower | src/extraDisposableCheck/extraDisposableCheck.ts:57 | The pattern words are lower case |
| ExtraDisposable.TldsAreLower | src/extraDisposableCheck/extraDisposableCheck.ts:57 | The pattern TLDs are lower case |
| ExtraDisposable.DigitRunOf | src/extraDisposableCheck/extraDisposableCheck.ts:57 | The digit run of digits followed by a non-digit is those digits |
| ExtraDisposable.PatternStartsWithWord | src/extraDisposableCheck/extraDisposableCheck.ts:57 | A matching name starts with a pattern word |
| Server.NormalizeResult | server.js:135-257 | The status is never unknown and is `valid` exactly when `valid` is true; a definite SMTP `mailbox_not_found` rejects; otherwise the enhanced path accepts exactly `EnhancedAccepts` and the basic one exactly `BasicAccepts`; reason, score and the disposable and breached flags are as the output record builds them |
| Server.DisposableWithHighScoreAccepted | server.js:167-174 | In the enhanced path, a disposable domain with MX and a score of 50 or more is accepted |
| Server.EnhancedRejects | server.js:161-190 | In the enhanced path, a score below 35 or a missing MX is never accepted |
| Server.SpfDoesNotDecide | server.js:214-221 | In the basic path, SPF changes only the wording, never the verdict |
| Server.GetReason | server.js:260-270 | The reason applies, and every reason earlier in the fixed order does not |
| Server.AbsentScoreIsNotLow | server.js:268 | Without a security score the reason is never `low_confidence` |
| Server.BasicRejectionReasons | server.js:206-264 | When the basic path rejects an address not marked invalid, `getReason` names disposable, typo, no MX or breaches, unless the MX host is set and the MX domain is not |
| Server.MissingMxDomainMisreported | server.js:142-263 | Such an address is rejected for lack of MX, yet `getReason` reports a later reason |

## Left out

- Sockets, time and randomness. The TCP socket and its ASCII encoding are not modelled; the socket is the sequence of events its handlers receive. The 10-second inactivity timer is its `Timeout` event; `Date.now` and `Math.random` in the probe addresses are string parameters.
- How a socket's `writable` and `destroyed` flags drop is foreign. Two events, `Ended` and `Destroyed`, stand for it.
- The logging (`log`, `console.log`) and the messages in `smtpMessage` are left out. They are text with no effect on any decision.
- DNS. The MX lookup (`getMx`, `setServers`) and the TXT resolver are foreign. TXT answers are a zone map in which a missing name is a failed lookup. The resolver's parallel `Promise.all` is modelled as sequential, since the two lookups are independent.
- HTTP. The Kickbox request is an input reply. The breach, domain-reputation and Disify APIs, the multi-API scoring of `server.js` (its `/1.4` float scaling included) and the Express routes are not part of this model; the multi-API assessment reaches `normalizeResult` as its score and Disify flag.
- `validate` in `src/index.ts`. Its orchestration of the checks is not part of this model; only the score, `mx_domain` and `domainStatus` fragments are.
- Modules the core only calls: the base `checkTypo`, `isEmail`, `checkDisposable` and `getOptions`. They are not part of this model. The base typo verdict is an input of `CheckTypoWithSuggestion`.
- `TypoDetection.CheckTypoWithSuggestion`: the `confidence` float is left out. Floating point is not modelled.
- `TypoDetection.BestMatch`: requires every key to be non-empty, so that the empty result can mean "no match". `commonTypos` satisfies this (`CommonTyposTruthy`).
- Strings. `toLowerCase` and the `i` flag are modelled on ASCII letters only; `\s` is the full ECMAScript whitespace set. Lengths count characters, not UTF-16 code units. Inherited object keys such as `constructor` are not taken into account in the `commonTypos` and `providerMap` lookups.
- `Server.NormalizeResult`: `decisionReason` is only logged and is left out. So are the output fields copied through unchanged (`user`, `domain`, `provider`, and the like).
- `CatchAll.Step`, `Smtp.Step`, `Smtp.ProbeStep`: all three probes attach their `data` listener inside the `connect` handler, so a second `connect` event would attach a second listener in the source. The models treat a repeated connect as a no-op.
- `Output.ValidatorsHaveEveryLevel`: it states that every level has an entry, not that there are exactly eight keys. The eight follow from `Level` having eight constructors and the map holding only levels.
- `PatternValidation.ValidateEmailPattern`: it states which issues and warnings are reported, not the order or multiplicity of the lists.
- `Deliverability.CalculateDeliverabilityScore`: the one function of the source is split into the disqualifiers (this method) and the `+=` chain (`AccumulateFactors`). Likewise, `levenshteinDistance` is split into the method and its row loop `FillRow`, and `validateEmailPattern` into its blocks `CheckLocalPart`, `CheckDomain` and `Collect`. Each split is along the source's own blocks.
- The copies under `dist/` of the TypeScript modules are not modelled separately; the one module modelled from `dist/` is the pattern validator.
