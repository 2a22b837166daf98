/** The credit ledger as a value: its records, the balances folded from them,
    and the four guarded operations. */
module LedgerLog {
  import opened Prelude

  type Account = string
  type JobId = string

  const SELF: Account := "self"
  const ESCROW: Account := "escrow"
  const GENESIS: Account := "genesis"

  lemma DistinctNames()
    ensures SELF != ESCROW && SELF != GENESIS && ESCROW != GENESIS
  {
    assert |SELF| == 4 && |ESCROW| == 6 && |GENESIS| == 7;
  }

  const OPENING_BALANCE := 10
  const JOB_PRICE := 1

  datatype Kind = Opening | Escrow | Settle | Refund | Work

  datatype Entry = Entry(account: Account, delta: int)

  datatype Record = Record(kind: Kind, job: Option<JobId>, entries: seq<Entry>)

  type Log = seq<Record>

  datatype LedgerError = BalanceIsZero | JobHasRecords | NoEscrow | AlreadyClosed | AlreadyCredited

  /** A public ledger call that may append a record. */
  datatype Op =
    | EscrowFor(job: JobId, worker: Account)
    | SettleTo(job: JobId, worker: Account)
    | RefundOf(job: JobId)
    | WorkFor(job: JobId, requester: Account)

  /** The names that peer ids must not collide with. */
  predicate Reserved(a: Account) {
    a == SELF || a == ESCROW || a == GENESIS
  }

  const OPENING := Record(Opening, None, [Entry(GENESIS, -OPENING_BALANCE), Entry(SELF, OPENING_BALANCE)])

  function RecordOf(op: Op): Record {
    match op
    case EscrowFor(job, _) => Record(Escrow, Some(job), [Entry(SELF, -JOB_PRICE), Entry(ESCROW, JOB_PRICE)])
    case SettleTo(job, worker) => Record(Settle, Some(job), [Entry(ESCROW, -JOB_PRICE), Entry(worker, JOB_PRICE)])
    case RefundOf(job) => Record(Refund, Some(job), [Entry(ESCROW, -JOB_PRICE), Entry(SELF, JOB_PRICE)])
    case WorkFor(job, requester) => Record(Work, Some(job), [Entry(requester, -JOB_PRICE), Entry(SELF, JOB_PRICE)])
  }

  /** Sum of the deltas that `es` books on account `a`. */
  function EntrySum(es: seq<Entry>, a: Account): int {
    if es == [] then 0
    else EntrySum(es[..|es| - 1], a) + if es[|es| - 1].account == a then es[|es| - 1].delta else 0
  }

  /** The sum of all deltas. */
  function Total(es: seq<Entry>): int {
    if es == [] then 0 else Total(es[..|es| - 1]) + es[|es| - 1].delta
  }

  /** Double-entry lines balance in every record the ledger writes. */
  lemma RecordsBalance(op: Op)
    ensures Total(RecordOf(op).entries) == 0
  {
    TotalOfTwo(RecordOf(op).entries[0], RecordOf(op).entries[1]);
  }

  lemma TotalOfTwo(x: Entry, y: Entry)
    ensures Total([x, y]) == x.delta + y.delta
  {
    assert [x, y][..1] == [x];
    assert Total([x]) == x.delta;
  }

  /** The balance of an account: the nested sum over records and entries. */
  function Balance(log: Log, a: Account): int {
    if log == [] then 0 else Balance(log[..|log| - 1], a) + EntrySum(log[|log| - 1].entries, a)
  }

  predicate CanOffer(log: Log) {
    Balance(log, SELF) >= JOB_PRICE
  }

  /** The kinds of the records of one job, in log order. */
  function JobKinds(log: Log, job: JobId): seq<Kind> {
    if log == [] then []
    else JobKinds(log[..|log| - 1], job) + if log[|log| - 1].job == Some(job) then [log[|log| - 1].kind] else []
  }

  predicate Open(log: Log, job: JobId) {
    var kinds := JobKinds(log, job);
    Escrow in kinds && Settle !in kinds && Refund !in kinds
  }

  /** Why an operation is refused, if it is. */
  function Refusal(log: Log, op: Op): Option<LedgerError> {
    var kinds := JobKinds(log, op.job);
    match op
    case EscrowFor(_, _) =>
      if Balance(log, SELF) < JOB_PRICE then Some(BalanceIsZero)
      else if kinds != [] then Some(JobHasRecords) else None
    case WorkFor(_, _) =>
      if Work in kinds then Some(AlreadyCredited) else None
    case _ =>
      if Escrow !in kinds then Some(NoEscrow)
      else if Settle in kinds || Refund in kinds then Some(AlreadyClosed) else None
  }

  function Perform(log: Log, op: Op): Result<Log, LedgerError> {
    match Refusal(log, op)
    case Some(e) => Failure(e)
    case None => Success(log + [RecordOf(op)])
  }

  /** One ledger call leads from `before` to `after`. */
  ghost predicate OneCall(before: Log, after: Log) {
    exists op :: Perform(before, op) == Success(after)
  }

  /** Logs that some sequence of ledger calls produces on a new ledger. */
  ghost predicate Legal(log: Log) {
    log == [OPENING] || (|log| > 1 && Legal(log[..|log| - 1]) && OneCall(log[..|log| - 1], log))
  }

  /** Number of records of a kind. */
  function Count(log: Log, k: Kind): nat {
    if log == [] then 0 else Count(log[..|log| - 1], k) + if log[|log| - 1].kind == k then 1 else 0
  }

  /** The remote party of a settle (the worker paid) or a work record (the requester charged). */
  function Party(r: Record): Option<Account> {
    if |r.entries| != 2 then None
    else if r.kind == Settle then Some(r.entries[1].account)
    else if r.kind == Work then Some(r.entries[0].account)
    else None
  }

  function CountWith(log: Log, k: Kind, a: Account): nat {
    if log == [] then 0
    else CountWith(log[..|log| - 1], k, a)
         + if log[|log| - 1].kind == k && Party(log[|log| - 1]) == Some(a) then 1 else 0
  }

  /** Every effect of one successful call on what is folded from the log. */
  lemma PerformEffect(log: Log, op: Op)
    requires Perform(log, op).Success?
    ensures var log', r := Perform(log, op).value, RecordOf(op);
      && log' == log + [r]
      && (forall a :: Balance(log', a) == Balance(log, a) + EntrySum(r.entries, a))
      && (forall j :: JobKinds(log', j) == JobKinds(log, j) + if j == op.job then [r.kind] else [])
      && (forall k :: Count(log', k) == Count(log, k) + if k == r.kind then 1 else 0)
      && (forall k, a :: CountWith(log', k, a)
                         == CountWith(log, k, a) + if k == r.kind && Party(r) == Some(a) then 1 else 0)
  {
    var log' := log + [RecordOf(op)];
    assert log'[..|log'| - 1] == log;
  }

  /** A call that succeeds keeps the log legal. */
  lemma PerformLegal(log: Log, op: Op)
    requires Legal(log) && Perform(log, op).Success?
    ensures Legal(Perform(log, op).value)
  {
    var log' := Perform(log, op).value;
    assert log'[..|log'| - 1] == log;
    assert OneCall(log, log');
  }

  /** The call that appended the last record of a legal log. */
  lemma LastCall(log: Log) returns (before: Log, op: Op)
    requires Legal(log) && log != [OPENING]
    ensures |log| > 1 && before == log[..|log| - 1]
    ensures Legal(before) && Perform(before, op) == Success(log)
  {
    before := log[..|log| - 1];
    op :| Perform(before, op) == Success(log);
  }

  lemma TwoEntries(x: Entry, y: Entry, a: Account)
    ensures EntrySum([x, y], a)
            == (if x.account == a then x.delta else 0) + (if y.account == a then y.delta else 0)
  {
    var es := [x, y];
    assert es[..1] == [x] && es[1] == y;
    assert EntrySum([x], a) == if x.account == a then x.delta else 0;
  }
}
