/** The ledger object: records in memory, mirrored to one file. */
module LedgerFile {
  import opened Prelude
  import opened LedgerLog
  import opened Storage
  import LedgerLaws

  class Ledger {
    var records: Log
    var main: File
    var tmp: File

    ghost predicate Valid()
      reads this
    {
      Legal(records) && main == Whole(records)
    }

    /** `stored` is what the path holds, unless it does not parse.  Whatever
        parses is taken as it is; `EveryRunIsSound` shows that what the ledger
        itself leaves there parses and is reachable. */
    constructor (stored: File)
      requires stored != Torn
      ensures records == if stored.Whole? then stored.log else [OPENING]
      ensures main == Whole(records)
      ensures Valid() <==> Legal(records)
      ensures stored == Absent ==> Valid()
    {
      main := stored;
      tmp := Absent;
      records := if stored.Whole? then stored.log else [];
      new;
      if stored == Absent {
        TotalOfTwo(OPENING.entries[0], OPENING.entries[1]);
        Append(Opening, None, OPENING.entries);
      }
    }

    /** Opening the ledger at start-up: it raises iff the file does not parse. */
    static method Load(stored: File) returns (ledger: Ledger?)
      ensures ledger == null <==> stored == Torn
      ensures ledger != null ==>
        && fresh(ledger) && ledger.records == (if stored.Whole? then stored.log else [OPENING])
        && ledger.main == Whole(ledger.records) && (ledger.Valid() <==> Legal(ledger.records))
    {
      if stored == Torn {
        return null;
      }
      ledger := new Ledger(stored);
    }

    /** Appends in memory, writes the whole log to the temporary file, renames. */
    method Append(kind: Kind, job: Option<JobId>, entries: seq<Entry>)
      requires Total(entries) == 0
      modifies this
      ensures records == old(records) + [Record(kind, job, entries)]
      ensures main == Whole(records) && tmp == Absent
    {
      records := records + [Record(kind, job, entries)];
      tmp := Torn;
      tmp := Whole(records);
      main := tmp;
      tmp := Absent;
    }

    method GetBalance(account: Account) returns (b: int)
      requires Valid()
      ensures b == Balance(records, account)
      ensures account == SELF ==> b >= 0
    {
      b := Balance(records, account);
      if account == SELF {
        LedgerLaws.NeverOverdrawn(records);
      }
    }

    method MayOffer() returns (ok: bool)
      requires Valid()
      ensures ok <==> CanOffer(records)
    {
      var b := GetBalance(SELF);
      ok := b >= JOB_PRICE;
    }

    method Escrow(job: JobId, worker: Account) returns (e: Option<LedgerError>)
      requires Valid()
      modifies this
      ensures Valid()
      ensures e == if Balance(old(records), SELF) < 1 then Some(BalanceIsZero)
                   else if JobKinds(old(records), job) != [] then Some(JobHasRecords) else None
      ensures e == Refusal(old(records), EscrowFor(job, worker))
      ensures e == None ==> Perform(old(records), EscrowFor(job, worker)) == Success(records)
      ensures e != None ==> records == old(records)
    {
      if Balance(records, SELF) < JOB_PRICE {
        return Some(BalanceIsZero);
      }
      if JobKinds(records, job) != [] {
        return Some(JobHasRecords);
      }
      PerformLegal(records, EscrowFor(job, worker));
      RecordsBalance(EscrowFor(job, worker));
      Append(LedgerLog.Escrow, Some(job), [Entry(SELF, -JOB_PRICE), Entry(ESCROW, JOB_PRICE)]);
      e := None;
    }

    /** The check shared by settle and refund. */
    method RequireOpenEscrow(job: JobId) returns (e: Option<LedgerError>)
      ensures e == None <==> Open(records, job)
      ensures e == Some(NoEscrow) <==> LedgerLog.Escrow !in JobKinds(records, job)
      ensures e == Refusal(records, RefundOf(job))
      ensures forall worker :: e == Refusal(records, SettleTo(job, worker))
    {
      var kinds := JobKinds(records, job);
      if LedgerLog.Escrow !in kinds {
        return Some(NoEscrow);
      }
      if LedgerLog.Settle in kinds || LedgerLog.Refund in kinds {
        return Some(AlreadyClosed);
      }
      e := None;
    }

    method Settle(job: JobId, worker: Account) returns (e: Option<LedgerError>)
      requires Valid()
      modifies this
      ensures Valid()
      ensures e == Refusal(old(records), SettleTo(job, worker))
      ensures e == None ==> Perform(old(records), SettleTo(job, worker)) == Success(records)
      ensures e != None ==> records == old(records)
    {
      e := RequireOpenEscrow(job);
      if e == None {
        PerformLegal(records, SettleTo(job, worker));
        RecordsBalance(SettleTo(job, worker));
        Append(LedgerLog.Settle, Some(job), [Entry(ESCROW, -JOB_PRICE), Entry(worker, JOB_PRICE)]);
      }
    }

    method Refund(job: JobId) returns (e: Option<LedgerError>)
      requires Valid()
      modifies this
      ensures Valid()
      ensures e == Refusal(old(records), RefundOf(job))
      ensures e == None ==> Perform(old(records), RefundOf(job)) == Success(records)
      ensures e != None ==> records == old(records)
    {
      e := RequireOpenEscrow(job);
      if e == None {
        PerformLegal(records, RefundOf(job));
        RecordsBalance(RefundOf(job));
        Append(LedgerLog.Refund, Some(job), [Entry(ESCROW, -JOB_PRICE), Entry(SELF, JOB_PRICE)]);
      }
    }

    method CreditForWork(job: JobId, requester: Account) returns (e: Option<LedgerError>)
      requires Valid()
      modifies this
      ensures Valid()
      ensures e == if Work in JobKinds(old(records), job) then Some(AlreadyCredited) else None
      ensures e == Refusal(old(records), WorkFor(job, requester))
      ensures e == None ==> Perform(old(records), WorkFor(job, requester)) == Success(records)
      ensures e != None ==> records == old(records)
    {
      if Work in JobKinds(records, job) {
        return Some(AlreadyCredited);
      }
      PerformLegal(records, WorkFor(job, requester));
      RecordsBalance(WorkFor(job, requester));
      Append(Work, Some(job), [Entry(requester, -JOB_PRICE), Entry(SELF, JOB_PRICE)]);
      e := None;
    }
  }
}
