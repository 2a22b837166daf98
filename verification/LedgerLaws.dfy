/** What holds of every log the ledger can reach. */
module LedgerLaws {
  import opened Prelude
  import opened LedgerLog

  /** Closed form of the balance of any account whatever, for any counterparty
      names the callers passed in. */
  lemma {:induction false} ClosedForm(log: Log, a: Account)
    requires Legal(log)
    ensures Balance(log, a)
            == (if a == SELF then OPENING_BALANCE + Count(log, Work) + Count(log, Refund) - Count(log, Escrow) else 0)
               + (if a == ESCROW then Count(log, Escrow) - Count(log, Settle) - Count(log, Refund) else 0)
               - (if a == GENESIS then OPENING_BALANCE else 0)
               + CountWith(log, Settle, a) - CountWith(log, Work, a)
  {
    hide JobKinds, EntrySum, Refusal;
    DistinctNames();
    if log == [OPENING] {
      TwoEntries(OPENING.entries[0], OPENING.entries[1], a);
      assert log[..0] == [];
    } else {
      var before, op := LastCall(log);
      ClosedForm(before, a);
      PerformEffect(before, op);
      var es := RecordOf(op).entries;
      TwoEntries(es[0], es[1], a);
    }
  }

  /** Only real peers appear as counterparties. */
  predicate PartiesAreUnreserved(log: Log) {
    forall r :: r in log && Party(r).Some? ==> !Reserved(Party(r).value)
  }

  lemma {:induction false} NoReservedParty(log: Log, k: Kind, a: Account)
    requires PartiesAreUnreserved(log) && Reserved(a)
    ensures CountWith(log, k, a) == 0
  {
    if log != [] {
      NoReservedParty(log[..|log| - 1], k, a);
    }
  }

  /** With unreserved counterparties the four kinds of accounts have the
      balances the ledger's documentation describes. */
  lemma AccountBalances(log: Log, peer: Account)
    requires Legal(log) && PartiesAreUnreserved(log) && !Reserved(peer)
    ensures Balance(log, SELF) == OPENING_BALANCE + Count(log, Work) + Count(log, Refund) - Count(log, Escrow)
    ensures Balance(log, ESCROW) == Count(log, Escrow) - Count(log, Settle) - Count(log, Refund)
    ensures Balance(log, GENESIS) == -OPENING_BALANCE
    ensures Balance(log, peer) == CountWith(log, Settle, peer) - CountWith(log, Work, peer)
    ensures Balance(log, SELF) + Balance(log, ESCROW)
            == OPENING_BALANCE + Count(log, Work) - Count(log, Settle)
  {
    ClosedForm(log, SELF);
    ClosedForm(log, ESCROW);
    ClosedForm(log, GENESIS);
    ClosedForm(log, peer);
    forall k, a | Reserved(a) ensures CountWith(log, k, a) == 0 {
      NoReservedParty(log, k, a);
    }
  }

  // ---- trial balance

  function TotalOver(log: Log, accounts: seq<Account>): int {
    if accounts == [] then 0
    else TotalOver(log, accounts[..|accounts| - 1]) + Balance(log, accounts[|accounts| - 1])
  }

  function EntriesOver(es: seq<Entry>, accounts: seq<Account>): int {
    if accounts == [] then 0
    else EntriesOver(es, accounts[..|accounts| - 1]) + EntrySum(es, accounts[|accounts| - 1])
  }

  ghost predicate Covers(accounts: seq<Account>, log: Log) {
    forall r, e :: r in log && e in r.entries ==> e.account in accounts
  }

  lemma {:induction false} EntriesOverPair(x: Entry, y: Entry, accounts: seq<Account>)
    requires Distinct(accounts)
    ensures EntriesOver([x, y], accounts)
            == (if x.account in accounts then x.delta else 0) + (if y.account in accounts then y.delta else 0)
  {
    if accounts != [] {
      var front, last := accounts[..|accounts| - 1], accounts[|accounts| - 1];
      EntriesOverPair(x, y, front);
      TwoEntries(x, y, last);
      assert accounts == front + [last];
      assert last !in front;
    }
  }

  lemma {:induction false} TotalOverAppend(log: Log, r: Record, accounts: seq<Account>)
    ensures TotalOver(log + [r], accounts) == TotalOver(log, accounts) + EntriesOver(r.entries, accounts)
  {
    if accounts != [] {
      TotalOverAppend(log, r, accounts[..|accounts| - 1]);
      assert (log + [r])[..|log|] == log;
    }
  }

  lemma {:induction false} TotalOfNothing(accounts: seq<Account>)
    ensures TotalOver([], accounts) == 0
  {
    if accounts != [] {
      TotalOfNothing(accounts[..|accounts| - 1]);
    }
  }

  /** Trial balance: over any list of accounts that covers the log without
      repetition, the balances sum to zero. */
  lemma {:induction false} TrialBalance(log: Log, accounts: seq<Account>)
    requires Legal(log) && Distinct(accounts) && Covers(accounts, log)
    ensures TotalOver(log, accounts) == 0
  {
    var r := log[|log| - 1];
    assert log == log[..|log| - 1] + [r];
    assert r in log;
    if log == [OPENING] {
      TotalOfNothing(accounts);
      assert log[..0] == [];
    } else {
      var before, op := LastCall(log);
      assert r == RecordOf(op);
      TrialBalance(before, accounts);
    }
    assert r.entries[0] in r.entries && r.entries[1] in r.entries;
    assert r.entries == [r.entries[0], r.entries[1]];
    TotalOverAppend(log[..|log| - 1], r, accounts);
    EntriesOverPair(r.entries[0], r.entries[1], accounts);
  }

  // ---- the language of one job

  /** A prefix of escrow then settle-or-refund, with at most one work record
      inserted, and no escrow after a work record. */
  predicate JobWord(w: seq<Kind>) {
    && |w| <= 3
    && (|w| == 1 ==> w[0] == Escrow || w[0] == Work)
    && (|w| >= 2 ==> w[0] == Escrow && w[1] != Opening && w[1] != Escrow)
    && (|w| == 3 ==> (w[1] == Work && (w[2] == Settle || w[2] == Refund))
                     || (w[2] == Work && (w[1] == Settle || w[1] == Refund)))
  }

  lemma {:induction false} JobLanguage(log: Log, job: JobId)
    requires Legal(log)
    ensures JobWord(JobKinds(log, job))
  {
    if log == [OPENING] {
      assert log[..0] == [];
    } else {
      var before, op := LastCall(log);
      JobLanguage(before, job);
      PerformEffect(before, op);
    }
  }

  /** Number of times a kind occurs among the records of one job. */
  function Times(w: seq<Kind>, k: Kind): nat {
    multiset(w)[k]
  }

  /** What membership and multiplicity come to in a word of the language. */
  lemma WordCounts(w: seq<Kind>)
    requires JobWord(w)
    ensures Times(w, Escrow) <= 1 && Times(w, Work) <= 1 && Times(w, Opening) == 0
    ensures Times(w, Settle) + Times(w, Refund) <= Times(w, Escrow)
  {
    assert |w| == 0 ==> w == [];
    assert |w| == 1 ==> w == [w[0]];
    assert |w| == 2 ==> w == [w[0], w[1]];
    assert |w| == 3 ==> w == [w[0], w[1], w[2]];
  }

  /** In a word of the language each letter was allowed when it came. */
  lemma WordGuards(w: seq<Kind>, i: nat)
    requires JobWord(w) && i < |w|
    ensures w[i] == Escrow ==> i == 0
    ensures w[i] == Work ==> Work !in w[..i]
    ensures w[i] == Settle || w[i] == Refund ==> Escrow in w[..i] && Settle !in w[..i] && Refund !in w[..i]
    ensures w[i] != Opening
  {
    if i > 0 {
      assert w[..i][0] == w[0];
    }
  }

  /** No job is escrowed, closed or credited twice, and a close needs an escrow. */
  lemma AtMostOnce(log: Log, job: JobId)
    requires Legal(log)
    ensures var w := JobKinds(log, job);
      && Times(w, Escrow) <= 1 && Times(w, Work) <= 1
      && Times(w, Settle) + Times(w, Refund) <= Times(w, Escrow)
      && (Open(log, job) <==> Times(w, Escrow) == 1 && Times(w, Settle) + Times(w, Refund) == 0)
  {
    JobLanguage(log, job);
    WordCounts(JobKinds(log, job));
  }

  /** An escrow can be closed, either way and to any worker, exactly while it is open. */
  lemma OpenCloses(log: Log, job: JobId, worker: Account)
    ensures Open(log, job) <==> Perform(log, RefundOf(job)).Success?
    ensures Open(log, job) <==> Perform(log, SettleTo(job, worker)).Success?
  {
    hide JobKinds;
  }

  function LetterOp(k: Kind, job: JobId): Op
    requires k != Opening
  {
    match k
    case Escrow => EscrowFor(job, "")
    case Settle => SettleTo(job, "")
    case Refund => RefundOf(job)
    case Work => WorkFor(job, "")
  }

  lemma NewLedger(job: JobId)
    ensures Legal([OPENING]) && JobKinds([OPENING], job) == [] && Balance([OPENING], SELF) == OPENING_BALANCE
    ensures PartiesAreUnreserved([OPENING])
  {
    DistinctNames();
    assert [OPENING][..0] == [];
    TwoEntries(OPENING.entries[0], OPENING.entries[1], SELF);
  }

  lemma NextLetter(log: Log, w: seq<Kind>, i: nat, job: JobId) returns (log': Log)
    requires Legal(log) && JobWord(w) && i < |w| && JobKinds(log, job) == w[..i]
    requires i == 0 ==> Balance(log, SELF) == OPENING_BALANCE
    ensures Legal(log') && JobKinds(log', job) == w[..i] + [w[i]]
  {
    WordGuards(w, i);
    var op := LetterOp(w[i], job);
    assert Refusal(log, op) == None;
    PerformEffect(log, op);
    PerformLegal(log, op);
    log' := Perform(log, op).value;
  }

  /** Conversely every word of the language is the history of a job in some
      reachable log. */
  lemma {:induction false} EveryWordOccurs(w: seq<Kind>, n: nat, job: JobId) returns (log: Log)
    requires JobWord(w) && n <= |w|
    ensures Legal(log) && JobKinds(log, job) == w[..n]
    ensures n == 0 ==> Balance(log, SELF) == OPENING_BALANCE
  {
    if n == 0 {
      NewLedger(job);
      log := [OPENING];
      assert w[..0] == [];
    } else {
      hide JobKinds, Legal, Balance, JobWord;
      var shorter := EveryWordOccurs(w, n - 1, job);
      assert w[..n - 1] + [w[n - 1]] == w[..n];
      log := NextLetter(shorter, w, n - 1, job);
    }
  }

  // ---- solvency and the meaning of the escrow account

  /** The spendable balance is never negative, whatever names the callers use. */
  lemma {:induction false} NeverOverdrawn(log: Log)
    requires Legal(log)
    ensures Balance(log, SELF) >= 0
  {
    if log == [OPENING] {
      ClosedForm(log, SELF);
      assert log[..0] == [];
    } else {
      var before, op := LastCall(log);
      NeverOverdrawn(before);
      PerformEffect(before, op);
      var es := RecordOf(op).entries;
      TwoEntries(es[0], es[1], SELF);
    }
  }

  /** The jobs whose escrow is open. */
  ghost function OpenJobs(log: Log): set<JobId> {
    set r | r in log && r.job.Some? && Open(log, r.job.value) :: r.job.value
  }

  /** The jobs that have a record of kind `k`. */
  ghost function JobsWith(log: Log, k: Kind): set<JobId> {
    set r | r in log && r.job.Some? && k in JobKinds(log, r.job.value) :: r.job.value
  }

  lemma {:induction false} JobsOccur(log: Log, job: JobId)
    requires JobKinds(log, job) != []
    ensures exists r :: r in log && r.job == Some(job)
  {
    var r := log[|log| - 1];
    if r.job != Some(job) {
      JobsOccur(log[..|log| - 1], job);
      var q :| q in log[..|log| - 1] && q.job == Some(job);
      assert q in log;
    }
  }

  lemma InOpenJobs(log: Log, job: JobId)
    ensures job in OpenJobs(log) <==> Open(log, job)
    ensures forall k :: job in JobsWith(log, k) <==> k in JobKinds(log, job)
  {
    if JobKinds(log, job) != [] {
      JobsOccur(log, job);
      var r :| r in log && r.job == Some(job);
    }
  }

  lemma JobsWithAfter(log: Log, op: Op, k: Kind)
    requires Perform(log, op).Success?
    ensures JobsWith(Perform(log, op).value, k)
            == JobsWith(log, k) + if k == RecordOf(op).kind then {op.job} else {}
  {
    var log' := Perform(log, op).value;
    forall j ensures j in JobsWith(log', k) <==> j in JobsWith(log, k) || (j == op.job && k == RecordOf(op).kind) {
      PerformEffect(log, op);
      InOpenJobs(log', j);
      InOpenJobs(log, j);
    }
  }

  /** Counting records counts jobs, because no kind repeats within a job. */
  lemma {:induction false} CountIsJobs(log: Log, k: Kind)
    requires Legal(log) && k != Opening
    ensures Count(log, k) == |JobsWith(log, k)|
  {
    if log == [OPENING] {
      assert log[..0] == [];
      assert forall r :: r in log ==> r.job == None;
    } else {
      var before, op := LastCall(log);
      CountIsJobs(before, k);
      CountAndJobsAfter(before, op, k);
    }
  }

  lemma CountAndJobsAfter(log: Log, op: Op, k: Kind)
    requires Legal(log) && Perform(log, op).Success?
    ensures var log' := Perform(log, op).value;
      Count(log', k) - Count(log, k) == |JobsWith(log', k)| - |JobsWith(log, k)|
  {
    JobsWithAfter(log, op, k);
    NoRepeat(log, op);
    InOpenJobs(log, op.job);
    PerformEffect(log, op);
  }

  /** A call that succeeds adds a kind its job did not have. */
  lemma NoRepeat(log: Log, op: Op)
    requires Legal(log) && Perform(log, op).Success?
    ensures RecordOf(op).kind !in JobKinds(log, op.job)
  {
  }

  lemma OpenJobsAsSets(log: Log)
    requires Legal(log)
    ensures var e, s, f := JobsWith(log, Escrow), JobsWith(log, Settle), JobsWith(log, Refund);
      s !! f && s + f <= e && OpenJobs(log) == e - (s + f)
  {
    var e, s, f := JobsWith(log, Escrow), JobsWith(log, Settle), JobsWith(log, Refund);
    forall j ensures (j in OpenJobs(log) <==> j in e && j !in s && j !in f)
                     && (j in s ==> j in e && j !in f) && (j in f ==> j in e)
    {
      hide JobKinds, JobsWith, OpenJobs;
      InOpenJobs(log, j);
      JobLanguage(log, j);
      ClosesExclude(JobKinds(log, j));
    }
  }

  /** The open jobs are as many as the escrows that were neither settled nor refunded. */
  lemma OpenJobsCount(log: Log)
    requires Legal(log)
    ensures |OpenJobs(log)| == Count(log, Escrow) - Count(log, Settle) - Count(log, Refund)
  {
    hide JobKinds, Count, Legal, JobsWith, OpenJobs;
    OpenJobsAsSets(log);
    SubsetSize(JobsWith(log, Settle) + JobsWith(log, Refund), JobsWith(log, Escrow));
    CountIsJobs(log, Escrow);
    CountIsJobs(log, Settle);
    CountIsJobs(log, Refund);
  }

  lemma ClosesExclude(w: seq<Kind>)
    requires JobWord(w)
    ensures Settle in w ==> Escrow in w && Refund !in w
    ensures Refund in w ==> Escrow in w && Settle !in w
  {
    assert |w| >= 2 ==> w[0] in w;
  }

  /** The escrow account holds one credit per open job, and the credits held
      there are bounded by what was earned and not yet paid out. */
  lemma Solvency(log: Log)
    requires Legal(log) && PartiesAreUnreserved(log)
    ensures Balance(log, SELF) >= 0
    ensures Balance(log, ESCROW) == |OpenJobs(log)|
    ensures |OpenJobs(log)| <= OPENING_BALANCE + Count(log, Work) - Count(log, Settle)
  {
    NeverOverdrawn(log);
    AccountBalances(log, "");
    OpenJobsCount(log);
  }

  /** Exactly how far the escrow account is off when counterparties may carry
      a reserved name: it is right iff as many settles as work records name it. */
  lemma EscrowAccountExactly(log: Log)
    requires Legal(log)
    ensures Balance(log, ESCROW) == |OpenJobs(log)| + CountWith(log, Settle, ESCROW) - CountWith(log, Work, ESCROW)
    ensures Balance(log, ESCROW) == |OpenJobs(log)|
            <==> CountWith(log, Settle, ESCROW) == CountWith(log, Work, ESCROW)
  {
    DistinctNames();
    ClosedForm(log, ESCROW);
    OpenJobsCount(log);
  }

  // ---- prefixes and opening records

  /** Every non-empty prefix of a reachable log is reachable: no crash between
      appends can leave an unreachable ledger. */
  lemma {:induction false} PrefixLegal(log: Log, n: nat)
    requires Legal(log) && 1 <= n <= |log|
    ensures Legal(log[..n])
  {
    if n < |log| {
      assert log[..n] == log[..|log| - 1][..n];
      PrefixLegal(log[..|log| - 1], n);
    } else {
      assert log[..n] == log;
    }
  }

  /** The opening record comes first and only once. */
  lemma {:induction false} OneOpening(log: Log)
    requires Legal(log)
    ensures log[0] == OPENING && Count(log, Opening) == 1
  {
    if log == [OPENING] {
      assert log[..0] == [];
    } else {
      var before, op := LastCall(log);
      OneOpening(before);
      PerformEffect(before, op);
    }
  }

  // ---- records of one party

  /** The jobs of the records of kind `k` whose remote party is `a`. */
  ghost function PartyJobs(log: Log, k: Kind, a: Account): set<JobId> {
    set r | r in log && r.kind == k && Party(r) == Some(a) && r.job.Some? :: r.job.value
  }

  lemma {:induction false} RecordHasKind(log: Log, r: Record)
    requires r in log && r.job.Some?
    ensures r.kind in JobKinds(log, r.job.value)
  {
    if log[|log| - 1] != r {
      assert r in log[..|log| - 1];
      RecordHasKind(log[..|log| - 1], r);
    }
  }

  lemma {:induction false} KindHasRecord(log: Log, k: Kind, job: JobId)
    requires k in JobKinds(log, job)
    ensures exists r :: r in log && r.kind == k && r.job == Some(job)
  {
    var last := log[|log| - 1];
    if last.job != Some(job) || last.kind != k {
      KindHasRecord(log[..|log| - 1], k, job);
      var r :| r in log[..|log| - 1] && r.kind == k && r.job == Some(job);
      assert r in log;
    }
  }

  /** Each job has at most one record of a kind. */
  lemma {:induction false} RecordIsUnique(log: Log, r: Record, q: Record)
    requires Legal(log) && r in log && q in log
    requires r.job.Some? && r.job == q.job && r.kind == q.kind
    ensures r == q
  {
    var last := log[|log| - 1];
    if log != [OPENING] {
      var before, op := LastCall(log);
      assert log == before + [RecordOf(op)];
      NoRepeat(before, op);
      if r in before && q in before {
        RecordIsUnique(before, r, q);
      } else if r in before {
        RecordHasKind(before, r);
      } else if q in before {
        RecordHasKind(before, q);
      }
    }
  }

  /** Records are exactly those the four operations write. */
  lemma {:induction false} RecordShape(log: Log, r: Record)
    requires Legal(log) && r in log && r != OPENING
    ensures exists op :: r == RecordOf(op)
  {
    var before, op := LastCall(log);
    assert log == before + [RecordOf(op)];
    if r in before {
      RecordShape(before, r);
    }
  }

  lemma {:induction false} PartyCountIsJobs(log: Log, k: Kind, a: Account)
    requires Legal(log)
    ensures CountWith(log, k, a) == |PartyJobs(log, k, a)|
  {
    if log == [OPENING] {
      assert log[..0] == [];
      assert PartyJobs(log, k, a) == {};
    } else {
      var before, op := LastCall(log);
      PartyCountIsJobs(before, k, a);
      PartyCountAfter(before, op, k, a);
    }
  }

  lemma PartyJobsAfter(log: Log, r: Record, k: Kind, a: Account)
    requires r.job.Some?
    ensures PartyJobs(log + [r], k, a)
            == PartyJobs(log, k, a) + if r.kind == k && Party(r) == Some(a) then {r.job.value} else {}
  {
    hide Party;
    forall j | j in PartyJobs(log + [r], k, a)
      ensures j in PartyJobs(log, k, a) || (r.kind == k && Party(r) == Some(a) && j == r.job.value)
    {
      var q :| q in log + [r] && q.kind == k && Party(q) == Some(a) && q.job == Some(j);
    }
    assert r in log + [r] && forall q :: q in log ==> q in log + [r];
  }

  lemma PartyCountAfter(log: Log, op: Op, k: Kind, a: Account)
    requires Legal(log) && Perform(log, op).Success?
    ensures var log' := Perform(log, op).value;
      CountWith(log', k, a) - CountWith(log, k, a) == |PartyJobs(log', k, a)| - |PartyJobs(log, k, a)|
  {
    PerformEffect(log, op);
    PartyJobsAfter(log, RecordOf(op), k, a);
    NotYetThere(log, op, a);
  }

  lemma NotYetThere(log: Log, op: Op, a: Account)
    requires Legal(log) && Perform(log, op).Success?
    ensures op.job !in PartyJobs(log, RecordOf(op).kind, a)
  {
    hide JobKinds, Party;
    NoRepeat(log, op);
    if op.job in PartyJobs(log, RecordOf(op).kind, a) {
      var q :| q in log && q.kind == RecordOf(op).kind && q.job == Some(op.job);
      RecordHasKind(log, q);
    }
  }
}
