# AgentTorrent verification

A Dafny model of AgentTorrent's credit ledgers and of the protocol that moves
credits between peers, with the peer table, the job admission rules and the
signed-envelope codec underneath. `dafny verify dfyconfig.toml` checks all of it.

## What is modelled

| files | what they hold |
|---|---|
| `LedgerLog`, `LedgerLaws` | the ledger as a list of records; balances, guards and the four operations as functions of it; laws of every reachable log |
| `Storage` | `_append` in its micro-steps (memory, temporary file, rename), loading, crashes and restarts |
| `Ledger` | the ledger object, each method proved against the functions above |
| `Roles` | `delegate` and `_serve_connection` as two machines that take one atomic step at a time |
| `Swarm`, `SwarmInvariant`, `SwarmTheorems`, `SwarmExamples` | any number of peers, delegations and connections over a network that drops, reorders and replays; crashes and restarts anywhere; corrupt outsiders that may send anything under ids of their own |
| `Durable` | the swarm with each ledger call as the micro-steps of `Storage`, and crashes between any two of them |
| `Session` | one requester and one worker over order-keeping channels, with other threads on both ledgers |
| `Deadline` | that session on a clock: the requester's wait against run time and overhead |
| `Link` | a connection as the roles use it, on top of `Protocol`, over a network fixed in advance: whether connecting, each send and each wait succeed, and the bytes that arrive |
| `Peer` | `delegate` and `_serve_connection` as methods, with the peer's other threads using the ledger between any two steps; each is a run of its machine in `Roles` |
| `Discovery`, `Gossip` | the lazily expired peer table against the history of beacons; the cascade of first-sight replies |
| `Admission` | choice of a worker, the worker's checks, choice of a harness, the deadline |
| `Json`, `JsonRoundTrip`, `JsonCanonical`, `JsonPrefix` | the encoder with both separator styles, key sorting, the decoder |
| `Identity`, `Framing`, `Protocol` | sealing and opening, lines over a byte stream, receiving on a connection |
| `Wire` | which message a payload is, and that receiving bytes refines what the machines receive |
| `Prelude`, `Order` | options and results, finite sums, code-point order and sorting of strings |

A run is an arbitrary list of events; an event that is not enabled changes
nothing. A theorem about every run is therefore a lemma about every list.

## Premises

- Peer ids are 40-digit hexadecimal digests. `Roles.DigestsAreUnreserved` turns
  this into what the accounts need: no peer is called `self`, `escrow` or
  `genesis`. Without it the escrow account may be wrong;
  `LedgerLaws.EscrowAccountExactly` says exactly when.
- Two delegations of honest peers never share a job id (it is a random UUID). A
  corrupt peer may offer any id it likes.
- A message is sent whole or the send raises. A write of the ledger file
  succeeds or the process dies in it.
- In the traffic a peer meets, nobody has forged a signature of an honest key or
  found another key with its id. `Identity.NoForgery` says this of a set of
  envelopes, for arbitrary `Crypto` functions, and is a hypothesis of the lemmas
  that need it.
- The clock a peer reads does not run backwards, and each call on the peer table
  is atomic.

## Where the code and its documentation differ

- `delegate` says that on any failure after escrow the credit is refunded and
  that it never raises for swarm-side problems. It catches ProtocolError only
  (`agenttorrent/peer.py:318`), so another exception passes the refund by: a line
  nested too deeply for the JSON code, a body that is no object, a TASK_RESULT
  without a body or with a `result` that is no object, a socket that loses its
  peer before `getpeername`. `SwarmExamples.ExceptionAfterEscrow` is a run that meets one, and
  `SwarmTheorems.EndedCallLeavesOpen` says that a call past its escrow that has
  ended has left it open iff it met one, and otherwise closed it exactly once. A
  TASK_REJECT without a body makes the call raise after its refund.
- A crash of the requester between escrow and close leaves the escrow open for
  good, since nothing looks for open escrows at start-up
  (`SwarmExamples.CrashAfterEscrow`, `SwarmTheorems.StuckEscrowStaysOpen`).
- Credits are not conserved. The worker credits itself after sending, the
  requester pays on receipt, so a lost result leaves the credit with both
  (`SwarmExamples.LostResult`). `SwarmTheorems.Conservation` gives the exact
  total in every state, and `SwarmTheorems.QuiescentTotal` says that at
  quiescence the excess over ten per peer is exactly the jobs that a worker
  booked and whose requester refunded them or paid another worker for them.
- `_MAX_LINE_BYTES` reads as a limit on the line; an envelope whose text fits it
  exactly still passes, because the missing newline is not noticed
  (`Framing.CapIsExact`).

## Model

| member | source | states |
|---|---|---|
| LedgerLog.RecordsBalance | agenttorrent/ledger.py:65 | the double-entry assertion of `_append` holds for every record an operation builds |
| LedgerLog.PerformEffect | agenttorrent/ledger.py:82-155 | one accepted call adds exactly its record's deltas to every account and its kind to its own job, and changes no other fold |
| LedgerLaws.ClosedForm | agenttorrent/ledger.py:82-155 | the nested-sum balance of any account in any reachable log, as record counts, whatever counterparty names were passed |
| LedgerLaws.AccountBalances | agenttorrent/ledger.py:3-20 | with real peer ids: self = 10 + works + refunds − escrows, escrow = escrows − settles − refunds, genesis = −10, peer = settles to it − works for it |
| LedgerLaws.TrialBalance | agenttorrent/ledger.py:64-83 | the balances of all accounts of a reachable log sum to zero |
| LedgerLaws.JobLanguage | agenttorrent/ledger.py:98-166 | a job's records spell a prefix of escrow·(settle or refund) with at most one work inserted, never an escrow after a work |
| LedgerLaws.EveryWordOccurs | agenttorrent/ledger.py:98-166 | the converse: every such word is some job's history in a reachable log |
| LedgerLaws.AtMostOnce | agenttorrent/ledger.py:142-166 | at most one escrow, one credit and one close for a job in any reachable log; open means escrowed and not closed |
| LedgerLaws.OpenCloses | agenttorrent/ledger.py:114-140 | settle and refund are accepted exactly while the escrow is open |
| LedgerLaws.NeverOverdrawn | agenttorrent/ledger.py:98-112 | the spendable balance is never negative in a reachable log |
| LedgerLaws.CountIsJobs | agenttorrent/ledger.py:98-166 | counting records of a kind counts distinct jobs |
| LedgerLaws.OpenJobsCount | agenttorrent/ledger.py:98-166 | the open jobs are as many as escrows less settles less refunds |
| LedgerLaws.Solvency | agenttorrent/ledger.py:94-112 | the escrow account is the number of open jobs, and that is at most 10 + works − settles |
| LedgerLaws.EscrowAccountExactly | agenttorrent/ledger.py:114-155 | for any counterparty names, the escrow account is right iff as many settles as work records name it |
| LedgerLaws.PrefixLegal | agenttorrent/ledger.py:42-60 | every prefix of a reachable log that keeps the opening record is reachable |
| LedgerLaws.OneOpening | agenttorrent/ledger.py:50-60 | the opening record comes first and once |
| LedgerLaws.RecordIsUnique | agenttorrent/ledger.py:98-166 | two records of one job and kind in a reachable log are the same record |
| LedgerLaws.PartyCountIsJobs | agenttorrent/ledger.py:114-155 | settles to a peer and work records for it count distinct jobs |
| Storage.EveryRunIsSound | agenttorrent/ledger.py:45-60 | over any sequence of calls, crashes and restarts: the file loads, holds a reachable log with one opening record, and is never shortened or rewritten |
| Storage.CrashDuringAppend | agenttorrent/ledger.py:74-78 | after a crash at any micro-step of an append, a restart loads the log from before it, or from after it iff the rename was done |
| LedgerFile.Ledger.constructor | agenttorrent/ledger.py:45-60 | takes whatever stored log parses, or creates one with the opening record and stores it |
| LedgerFile.Ledger.Load | agenttorrent/ledger.py:45-60 | opening raises iff the file does not parse; the ledger is valid iff the stored log is reachable |
| LedgerFile.Ledger.Append | agenttorrent/ledger.py:64-80 | appends one balanced record and leaves the file equal to memory |
| LedgerFile.Ledger.GetBalance | agenttorrent/ledger.py:90-92 | the folded balance; never negative for self |
| LedgerFile.Ledger.MayOffer | agenttorrent/ledger.py:94-96 | true iff a credit can be spent |
| LedgerFile.Ledger.Escrow | agenttorrent/ledger.py:98-112 | refuses for exactly the two reasons, in that order; else appends the escrow record; a refusal changes nothing |
| LedgerFile.Ledger.RequireOpenEscrow | agenttorrent/ledger.py:161-166 | passes iff the job's escrow is open, else names the reason |
| LedgerFile.Ledger.Settle | agenttorrent/ledger.py:114-126 | appends the settle record iff the escrow is open; a refusal changes nothing |
| LedgerFile.Ledger.Refund | agenttorrent/ledger.py:128-140 | appends the refund record iff the escrow is open; a refusal changes nothing |
| LedgerFile.Ledger.CreditForWork | agenttorrent/ledger.py:142-155 | appends the work record iff the job has none; a refusal changes nothing |
| Roles.DigestsAreUnreserved | agenttorrent/identity.py:36-38 | a 40-digit hexadecimal id is none of the ledger's own account names |
| Roles.FollowEscaped | agenttorrent/peer.py:271-327 | a run of `delegate` ends with an exception past its refund iff some step of it let one out |
| SwarmInvariant.RequestEffect | agenttorrent/peer.py:269-327 | a step of `delegate` keeps its phase, its job's records and the id its connection is pinned to in agreement, and touches no other job and no work record |
| SwarmInvariant.ServeEffect | agenttorrent/peer.py:161-223 | a worker step adds at most the work record of the job it served, only after a good result went out |
| SwarmInvariant.StepKeeps | agenttorrent/peer.py:161-327 | every event of the swarm keeps the invariant that ties phases, ledgers, offers and results together |
| SwarmInvariant.RunKeeps | agenttorrent/peer.py:161-327 | the invariant holds in every state of every run |
| SwarmTheorems.WriteAheadBacking | agenttorrent/peer.py:269-278 | a work record that names an honest requester is backed by that requester's escrow of the job, in every run with any crashes |
| SwarmTheorems.ExactlyOneClose | agenttorrent/peer.py:269-327 | a call past its escrow has exactly one escrow and no close until it closes it, then exactly one: a settle iff it reports ok, else a refund; no close ever raises |
| SwarmTheorems.OpenExactly | agenttorrent/peer.py:269-327 | an escrow is open iff its call is past the escrow and has not ended, or ended in an exception past the refund |
| SwarmTheorems.LiveEscrowCanClose | agenttorrent/peer.py:318-327 | a live call can close its escrow within two of its own steps from wherever it is |
| SwarmTheorems.EscapedMetOne | agenttorrent/peer.py:271-318 | in every run, a call has ended past its refund iff it met an exception other than ProtocolError |
| SwarmTheorems.EndedCallLeavesOpen | agenttorrent/peer.py:237-327 | a call past its escrow that has ended, by returning or raising, left it open iff it met such an exception, and otherwise closed it exactly once |
| SwarmTheorems.StuckCallStays | agenttorrent/peer.py:227-330 | a call killed by a crash, or ended in such an exception, never moves again |
| SwarmTheorems.StuckEscrowStaysOpen | agenttorrent/ledger.py:45-60 | its escrow is open in every continuation, restarts included |
| SwarmTheorems.LedgersGrow | agenttorrent/ledger.py:42-80 | every peer's log at any time is a prefix of its log at any later time |
| SwarmTheorems.Authenticity | agenttorrent/peer.py:272-308 | a settle to a worker means that this worker sealed a TASK_RESULT naming the job with status ok, and that every offer of the job left on a connection whose handshake had pinned that worker |
| SwarmTheorems.EveryPeerIsSolvent | agenttorrent/peer.py:241-269 | in every state of every run each peer's self balance is not negative and its escrow account is its open jobs, although the check precedes the escrow |
| SwarmTheorems.Conservation | agenttorrent/peer.py:218-223 | in every reachable state the credits of all peers are ten each, plus the unpaid work, minus the uncredited payments |
| SwarmTheorems.PaymentsAreMatched | agenttorrent/peer.py:218-221 | an uncredited payment to an honest worker means that the worker is, or died, between sending and crediting |
| SwarmTheorems.UnpaidInLedgerTerms | agenttorrent/peer.py:218-327 | among honest peers, a job is unpaid work of a worker iff the worker's ledger books it for a requester whose ledger shows it refunded, paid to another worker, or still in escrow |
| SwarmTheorems.NothingUncredited | agenttorrent/peer.py:218-223 | among honest peers with nobody between sending and crediting, no payment is uncredited |
| SwarmTheorems.QuiescentTotal | agenttorrent/peer.py:218-327 | there, once every escrow is closed, the total exceeds ten per peer by exactly the number of jobs booked by a worker and refunded, or paid to another worker, by the ledger of the requester they name |
| SwarmTheorems.SettledWasWorked | agenttorrent/peer.py:296-308 | there, the jobs one peer settled to another are among the jobs the other recorded for it |
| SwarmTheorems.BilateralMirror | agenttorrent/ledger.py:114-155 | there, what two peers book on each other sums to at most zero, and to zero iff all work credited between them was settled |
| SwarmExamples.LostResult | agenttorrent/peer.py:218-223 | the run of a lost result: two peers hold 21 credits |
| SwarmExamples.CrashAfterEscrow | agenttorrent/peer.py:269-278 | a run in which a crash strands the escrow: it is open in every continuation |
| SwarmExamples.ExceptionAfterEscrow | agenttorrent/peer.py:318 | a run in which an exception strands the escrow of a peer that stays up |
| Durable.FilesAreLedgers | agenttorrent/ledger.py:64-80 | every run with crashes between any two micro-steps of any append is a run of the swarm whose ledgers are what the files hold, and what a restart loads |
| Durable.WriteAheadOnDisk | agenttorrent/peer.py:269-278 | on disk too, a work record that names an honest requester is backed by that requester's escrow, whatever crashed between which micro-steps |
| Session.NoSurpriseNoDeadlock | agenttorrent/peer.py:161-218 | in every schedule, with other threads on both ledgers, no receive meets an unexpected type, and some side can move until both have finished |
| Session.CompleteRuns | agenttorrent/peer.py:272-317 | a finished session is HANDSHAKE, HANDSHAKE, OFFER, then REJECT or ACCEPT·RESULT and leaves no message behind; what was settled the worker credited, and conversely if nothing else credits the job |
| Session.MovesProgress | agenttorrent/peer.py:161-295 | every step of either side brings it nearer its end |
| Session.AlwaysFinishes | agenttorrent/peer.py:161-327 | from any point a session can be finished within thirteen moves |
| Deadline.FinishedInTime | agenttorrent/peer.py:292-317 | if run time and overhead fit the wait, every finished course of an accepted job has settled it iff its run was ok, refunded it iff not, and credited the worker if it was |
| Deadline.NeverStuck | agenttorrent/peer.py:209-317 | then, until both ends have finished, some thread can go on or the job runs: time never has to stop |
| Deadline.LateCourse | agenttorrent/peer.py:292-327 | otherwise some course is late: the requester refunds, and the worker has credited itself if the run was ok |
| Deadline.DeadlineIsExact | agenttorrent/peer.py:292-295 | for a worker and a run as the executor returns it, no course is late iff its run time plus the overhead is at most the job's limit plus 15 s |
| Deadline.GraceIsExact | agenttorrent/peer.py:292-295 | for a job, every accepted run at every worker is in time in every course iff the overhead is at most 15 s |
| Links.Link.Recv | agenttorrent/protocol.py:69-101 | yields what the machines receive for the next line of the stream if the wait sees it in time, and nothing else; moves to the line after it |
| Links.Link.HandshakeOutbound | agenttorrent/protocol.py:115-120 | sends the greeting iff the network lets it, then pins the sender of a greeting received, and no one else |
| Links.Link.HandshakeInbound | agenttorrent/protocol.py:122-127 | pins the sender of the greeting before answering it, and answers it iff the network lets it |
| Peer.Interfere | agenttorrent/ledger.py:42-60 | any calls of other threads leave the job's escrow and close as they were |
| Peer.OfferJob | agenttorrent/peer.py:270-278 | the offer goes out iff the connection is made, both sends succeed and the first line is the chosen worker's greeting; else the failure is told apart; a run of the requester machine |
| Peer.AwaitReply | agenttorrent/peer.py:279-291 | goes on iff the worker's acceptance arrives; a rejection, another exception and a ProtocolError each exactly when the arrival is one; as the requester machine does |
| Peer.AwaitResult | agenttorrent/peer.py:292-308 | good iff the worker's result names this job with status ok, bad iff it names it with another status, another exception iff one arrives or the result cannot be read |
| Peer.AwaitAnswer | agenttorrent/peer.py:279-308 | the decision after both is the one the requester machine reaches, whatever other threads do between |
| Peer.Converse | agenttorrent/peer.py:271-318 | for every network: ends well iff worker greets, accepts and answers this job with ok in time and the two sends succeed; rejected iff it rejects; ProtocolError only if nothing else fits; sends exactly the greeting and the offer that can go out |
| Peer.Close | agenttorrent/peer.py:283-327 | on an open escrow the settle or refund never raises and leaves exactly one close, agreeing with the status and `refunded` |
| Peer.ConverseAndClose | agenttorrent/peer.py:271-327 | from an open escrow: returns ok iff the network brings a good result, rejected iff a rejection, failed iff neither and no other exception; the escrow is closed once accordingly, or open iff such an exception came |
| Peer.EscrowAndConverse | agenttorrent/peer.py:269-327 | LedgerError iff the escrow is refused; otherwise as above, for the whole run of the requester machine |
| Peer.Delegate | agenttorrent/peer.py:227-327 | asks the most recently seen listed peer that accepts tasks and has the harness, if the job names one, and never itself; finds one iff there is one; LedgerError iff other threads spent the balance or booked the job between check and escrow; then returns ok with the settle booked iff that peer greets, accepts and answers with ok, rejected or failed with the refund booked otherwise, and leaves the escrow open iff an exception passes the refund by |
| Peer.RunAndReply | agenttorrent/peer.py:209-219 | acceptance, run, result in this order, each sent iff the network lets it, with the status of the run; goes on to the credit iff a good result went out |
| Peer.HandleTaskOffer | agenttorrent/peer.py:177-223 | exactly the messages due: a rejection if the worker does not take the offer, for any of the five reasons, else acceptance and result; one work record iff both went out, the run was ok and the job had none; a complete run of the worker machine |
| Peer.ReceiveOffer | agenttorrent/peer.py:162-167 | an offer is taken iff a greeting arrives, is answered, and an offer from the same peer follows |
| Peer.ServeConnection | agenttorrent/peer.py:161-223 | for every network: if it brings an offer, the job read from its payload is answered and booked as `HandleTaskOffer` does; if not, nothing is booked and at most the greeting is answered |
| Discovery.ViewIsUnique | agenttorrent/discovery.py:119 | the listing at a time is determined by the history of accepted beacons |
| Discovery.SortedRowsAreView | agenttorrent/discovery.py:111-119 | a table without expired rows, sorted, is that listing |
| Discovery.LiveIsShown | agenttorrent/discovery.py:166-199 | the rows the history holds live are exactly the last announcements among the datagrams received |
| Discovery.BeaconIsListed | agenttorrent/discovery.py:193-199 | a valid beacon handled at some time is listed for 30 s with its sender, host, port, manifest and time, unless its sender is heard again |
| Discovery.Discovery.HandleBeacon | agenttorrent/discovery.py:166-218 | enters the row that a datagram announces (verified BEACON of another peer, port 1 to 65535, its own valid manifest) with its host and the time, replies iff the sender had none, and ignores every other datagram |
| Discovery.Discovery.Expire | agenttorrent/discovery.py:113-118 | pops exactly the rows older than the TTL |
| Discovery.Discovery.Peers | agenttorrent/discovery.py:111-119 | lists exactly the last announcement of each peer among all datagrams ever handled, if not older than 30 s, in code-point order of ids, however earlier calls expired rows |
| Discovery.Discovery.GetPeer | agenttorrent/discovery.py:121-125 | finds the listed row of an id, or shows that there is none |
| Discovery.RebuiltFromGossip | agenttorrent/discovery.py:111-119 | two histories that agree after t0 give the same listing from 30 s after t0 on |
| Discovery.FeedRefines | agenttorrent/discovery.py:111-119 | a table fed beacons and expiries in order goes on agreeing with its history |
| Discovery.TablesConverge | agenttorrent/__init__.py:16-17 | two tables of any content at t0, fed the same beacons with expiries at any times, list the same peers from 30 s after t0 on |
| Discovery.TableHasHistory | agenttorrent/discovery.py:191-199 | every table content, an empty one included, is that of some history |
| Gossip.RepliesAreBounded | agenttorrent/discovery.py:209-218 | over any run of N peers, first-sight replies are at most N(N−1) plus evictions |
| Gossip.CascadeDrains | agenttorrent/discovery.py:209-218 | with sends and evictions paused, deliveries and losses are bounded by 2·missing pairs + beacons in flight |
| Gossip.DeliverAll | agenttorrent/discovery.py:209-215 | delivering everything ends with nothing in flight, and every pair that first met in it knows each other both ways |
| Gossip.DeliveryIsHandling | agenttorrent/discovery.py:191-218 | delivering a beacon in the net is what `_handle_beacon` does to the receiver's table, with a reply in flight exactly when it sends one |
| Gossip.ExpiryIsEvicting | agenttorrent/discovery.py:113-118 | one expiry of a table is a run of as many evictions as it pops rows |
| Admission.ChooseWorker | agenttorrent/peer.py:249-260 | finds a worker iff some row accepts tasks and has the harness, or the job is for any; the first of the most recently seen ones |
| Admission.ExecuteJob | agenttorrent/executor.py:99-193 | refuses invalid jobs; unforced, `api` runs iff advertised, `claude` and `codex` iff advertised and on the path, `any` on the first of claude, codex, api that can; else simulated; ok iff simulated or exit code 0; the time the process took, or the smaller of delay and limit |
| Admission.ChosenWorkerAccepts | agenttorrent/peer.py:180-208 | a worker whose row is current rejects a valid job only for its runtime limit, and is not the requester |
| Admission.AcceptsExactly | agenttorrent/peer.py:180-208 | acceptance in full: another peer, a job valid field by field, a worker accepting tasks, with the harness or simulating, and within its limit |
| Admission.AcceptedRunsAsAsked | agenttorrent/peer.py:192-217 | an accepted job that names a harness runs on it if its binary resolves and the worker is not set to simulate; a harness the worker lacks is accepted for simulation only |
| Order.BelowIsPrecedes | agenttorrent/discovery.py:119 | the order of ids and keys is Python's: a proper prefix first, else the smaller code point at the first difference |
| JsonRoundTrip.LoadsText | agenttorrent/identity.py:31-33 | decoding either serialisation gives the value back |
| JsonCanonical.SortedEqualIffSame | agenttorrent/identity.py:33 | sorting keys identifies exactly the values that differ in member order only |
| JsonCanonical.SignedKeysInOrder | agenttorrent/identity.py:33 | in the signed value the keys of every object come in code-point order |
| JsonCanonical.CanonicalIffSame | agenttorrent/identity.py:31-33 | signing texts are equal iff the values are equal up to member order |
| JsonCanonical.ResignsTheSame | agenttorrent/identity.py:77-105 | decoding what was sent and serialising it again gives the text that was signed |
| JsonCanonical.TextPrintable | agenttorrent/protocol.py:56 | serialised text is printable ASCII, so holds no newline |
| JsonCanonical.EscapeForm | agenttorrent/identity.py:33 | which characters are escaped and in what form, down to the lower-case digits |
| JsonCanonical.Layouts | agenttorrent/identity.py:33 | the literal signed and sent texts of a value with every punctuation mark |
| JsonCanonical.ObjectThenBlanks | agenttorrent/protocol.py:86 | an encoded object followed by anything decodes iff only blanks follow |
| JsonCanonical.LastDuplicateWins | agenttorrent/protocol.py:86 | of a key that comes twice in an object the decoder keeps the last value |
| JsonPrefix.PrefixIsRejected | agenttorrent/protocol.py:77-88 | no strict prefix of an encoded object decodes to anything |
| Identity.SealedOpens | agenttorrent/identity.py:69-108 | what `seal` made, sent and decoded, opens to the sealer's id and payload |
| Identity.OwnTraffic | agenttorrent/identity.py:69-83 | a key's own envelopes are traffic without forgery |
| Identity.OpenedWasSealed | agenttorrent/identity.py:85-108 | in traffic without forgery, whatever opens under an honest id was sealed by it, up to member order, with the same type and sender |
| Framing.LineReader.ReadLine | agenttorrent/protocol.py:77-78 | the line read and what remains depend on the bytes alone, not on how TCP cut them |
| Framing.FrameRound | agenttorrent/protocol.py:54-58 | a frame has its one newline at the end and decodes to its envelope |
| Framing.StreamRoundTrip | agenttorrent/protocol.py:77-88 | envelopes whose lines fit the cap arrive one by one, unchanged, and nothing else does |
| Framing.CapIsExact | agenttorrent/protocol.py:33-88 | an envelope gets through iff its text without newline fits the cap, else the first line is refused |
| Protocol.Connection.Recv | agenttorrent/protocol.py:69-101 | consumes one line and yields its message iff it decodes, verifies, has an object for a body, comes from the pinned peer and is of an expected type; tells the exceptions it lets out |
| Protocol.ReceivedIsAuthentic | agenttorrent/protocol.py:86-101 | a message received on a pinned connection was sealed by the pinned peer with an expected type |
| Protocol.SealedIsVerified | agenttorrent/protocol.py:54-96 | a sealed message that fits the cap is verified, whatever follows it; receiving it raises iff its body is no object |
| Protocol.SealedIsReceived | agenttorrent/protocol.py:54-101 | a sealed message of an expected type that fits the cap and the JSON code is received, whatever follows it |
| Wire.InspectIsReceived | agenttorrent/protocol.py:69-101 | `recv` on a line gives what the machines receive for the arrival that line stands for: the same sender and message, a ProtocolError, or another exception |
| Wire.SameMsg | agenttorrent/peer.py:296-299 | payloads equal up to member order are the same message to both roles |
| Wire.ArrivedWasSealed | agenttorrent/protocol.py:86-101 | a message that arrives under an honest id was sealed under its key as that message |
| Wire.PaidOnSealedResult | agenttorrent/peer.py:292-308 | `delegate` decides to pay only on a line carrying a payload sealed under the key of the pinned peer, a TASK_RESULT naming this job with status ok |
| Wire.DecidesOnSealedOffer | agenttorrent/peer.py:161-179 | the worker considers a job only on a line carrying an offer of it sealed under the key of the peer it will charge |
| Wire.SentArrives | agenttorrent/protocol.py:54-101 | every message a role seals, if it fits the cap and the JSON code, arrives as that message from that peer, whatever follows it |
| Wire.BadBodyRaises | agenttorrent/protocol.py:90-96 | a sealed message whose body is no object makes the receiving call raise, whoever it is from |
| Wire.BadResultIsUnreadable | agenttorrent/peer.py:296-297 | a sealed TASK_RESULT whose `result` is no object arrives as one that `delegate` cannot read |
| Wire.JobRoundTrip | agenttorrent/peer.py:278 | the worker reads from an offer the very job the requester wrote |

## Left out

- Sockets, threads and real time: steps are atomic at lock boundaries, timeouts are a failure that may come at any receive, the clock is an integer parameter.
- Ed25519, SHA-1 and hexadecimal coding: arbitrary functions under stated hypotheses; `load_or_create` is key-file I/O.
- Identity.Open: a key or signature of the wrong length makes the library raise ValueError, which both callers treat as unverifiable; here it counts as a bad signature.
- The `txn_id`, `ts` and `memo` of a ledger record, which no guard reads, and `records()`.
- The records of a ledger file edited by others are typed; one whose records lack fields is not modelled.
- Floats in JSON: `ts` is an integer here, and the decoder refuses fractions, exponents, NaN and infinities.
- Framing.Decode: refuses bytes outside ASCII, which the code would decode; no peer sends any, and `Identity.OpenedWasSealed` holds of an envelope however it was decoded.
- Json.OneChar: refuses lone surrogates, which Python strings can hold.
- Reasons and texts inside messages, and the reply fields taken from the result for display.
- Receiving CONTROL on an inbound connection, the control channel, the command line, `_summarize`, logging, runtime and configuration files.
- `_harness_command`, subprocess launch, environment and temporary directory: a run is an outcome and a duration within its timeout.
- Harness detection, and the field-by-field checks of `validate_job` and `validate_manifest`, which appear as predicates.
- Beacon sending and bootstrap addresses: `Gossip.Broadcast` sends to any peer at any time.
- Discovery.Discovery.HandleBeacon: does not model a body or field whose type makes the handler raise.
- Recovery of escrows after a requester's crash: the code has none, see `SwarmTheorems.StuckEscrowStaysOpen`.
- Deadline.GraceIsExact: the wait for the result only; the 10 s and 15 s waits of handshake and reply are failures that may come at any time, in `Swarm` and `Peer`. A message arrives whole, while the socket's timeout counts from the last bytes read. The clock has whole seconds.
- Identity.Platform: which lines are too deep for the JSON code is a parameter, since the limit is the interpreter's.
- The opening append in `Durable`, whose peers start with a ledger; `Storage.EveryRunIsSound` covers it.
- Wire.BodyOf: carries only the fields the other role reads; the harness, output and run time of a result are left out.
