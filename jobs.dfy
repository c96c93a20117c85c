/** The jobs controller: the unpaid-jobs listing and the payment of a job,
    which runs as one exclusive transaction. */
module Jobs {
  import opened Wrappers
  import opened Keys
  import opened Models
  import opened Parsing

  /** The `where` clause of the unpaid-jobs query: not paid, on an
      in-progress contract of which the user is client or contractor. */
  predicate UnpaidFor(s: Store, user: nat, id: nat)
  {
    && id in s.jobs
    && !s.jobs[id].paid
    && s.jobs[id].contractId in s.contracts
    && var c := s.contracts[s.jobs[id].contractId];
       IsParty(c, user) && c.status == InProgress
  }

  /** The ids of the user's unpaid jobs, ascending. */
  function UnpaidJobs(s: Store, user: nat): (ids: seq<nat>)
    ensures forall id :: id in ids <==> UnpaidFor(s, user, id)
    ensures Increasing(ids)
  {
    Filter(SortedKeys(s.jobs.Keys), (id: nat) => UnpaidFor(s, user, id))
  }

  /** The row of the join of a job with its contract, restricted to
      contracts whose client is the payer: absent both when the job does not
      exist and when the payer is not its client. */
  function ClientJob(s: Store, payer: nat, id: nat): Option<(Job, Contract)>
  {
    if id in s.jobs && s.jobs[id].contractId in s.contracts
       && s.contracts[s.jobs[id].contractId].clientId == payer
    then Some((s.jobs[id], s.contracts[s.jobs[id].contractId]))
    else None
  }

  /** The business checks, in the order the transaction runs them. */
  function Refusal(s: Store, payer: nat, id: nat): Option<ApiError>
    requires payer in s.profiles
  {
    match ClientJob(s, payer, id)
    case None => Some(JobNotFound)
    case Some((job, contract)) =>
      if contract.status == Terminated then Some(ContractTerminated)
      else if job.paid then Some(AlreadyPaid(job.paymentDate))
      else if s.profiles[payer].balance < job.price then Some(InsuffucientFunds)
      else None
  }

  /** The writes of a successful payment: the price moves from the payer to
      the contractor and the job is stamped paid at `now`. */
  function Settle(s: Store, payer: nat, id: nat, now: int): Store
    requires payer in s.profiles && ClientJob(s, payer, id).Some?
  {
    var (job, contract) := ClientJob(s, payer, id).value;
    s.(profiles := Transfer(s.profiles, payer, contract.contractorId, job.price),
       jobs := s.jobs[id := job.(paid := true, paymentDate := Some(now))])
  }

  /** `POST /jobs/:jobId/pay` as one atomic step from the committed store to
      the reply and the next committed store. */
  function Pay(s: Store, payer: nat, rawJobId: string, now: int): (r: (Outcome, Store))
    requires payer in s.profiles
    ensures ParseId(rawJobId).None? ==> r == (Failed(InvalidJobId), s)
    ensures r.0.Failed? ==> r.1 == s
    ensures r.1.contracts == s.contracts && r.1.profiles.Keys == s.profiles.Keys && r.1.jobs.Keys == s.jobs.Keys
    ensures r.0 == Done ==>
      && ParseId(rawJobId).Some? && ClientJob(s, payer, ParseId(rawJobId).value).Some?
      && var id := ParseId(rawJobId).value;
         var (job, c) := ClientJob(s, payer, id).value;
      && job == s.jobs[id] && c == s.contracts[job.contractId]
      && c.clientId == payer && c.status != Terminated && !job.paid
      && job.price <= s.profiles[payer].balance
      && r.1.jobs == s.jobs[id := job.(paid := true, paymentDate := Some(now))]
      && r.1.profiles == Transfer(s.profiles, payer, c.contractorId, job.price)
      && (payer != c.contractorId ==> r.1.profiles[payer].balance == s.profiles[payer].balance - job.price)
      && (payer != c.contractorId && c.contractorId in s.profiles ==>
            r.1.profiles[c.contractorId].balance == s.profiles[c.contractorId].balance + job.price)
      && (forall k :: k in s.profiles && k != payer && k != c.contractorId ==> r.1.profiles[k] == s.profiles[k])
  {
    match ParseId(rawJobId)
    case None => (Failed(InvalidJobId), s)
    case Some(id) =>
      match Refusal(s, payer, id)
      case Some(e) => (Failed(e), s)
      case None => (Done, Settle(s, payer, id, now))
  }

  /** `job_not_found` covers a missing job and a job the payer is not the
      client of alike, whatever the job's status, payment or price. */
  lemma PayNotFound(s: Store, payer: nat, rawJobId: string, now: int)
    requires payer in s.profiles && ParseId(rawJobId).Some?
    requires var id := ParseId(rawJobId).value;
      id !in s.jobs || s.jobs[id].contractId !in s.contracts
      || s.contracts[s.jobs[id].contractId].clientId != payer
    ensures Pay(s, payer, rawJobId, now) == (Failed(JobNotFound), s)
  {
  }

  /** Once the job is found: terminated beats already paid beats
      insufficient funds; only a terminated contract blocks payment, and a
      balance equal to the price suffices. */
  lemma PayPrecedence(s: Store, payer: nat, rawJobId: string, now: int)
    requires payer in s.profiles && ParseId(rawJobId).Some?
    requires ClientJob(s, payer, ParseId(rawJobId).value).Some?
    ensures
      var (job, c) := ClientJob(s, payer, ParseId(rawJobId).value).value;
      var r := Pay(s, payer, rawJobId, now).0;
      && (c.status == Terminated ==> r == Failed(ContractTerminated))
      && (c.status != Terminated && job.paid ==> r == Failed(AlreadyPaid(job.paymentDate)))
      && (c.status != Terminated && !job.paid && s.profiles[payer].balance < job.price ==> r == Failed(InsuffucientFunds))
      && (r == Done <==> c.status in {New, InProgress} && !job.paid && job.price <= s.profiles[payer].balance)
  {
  }

  /** A successful payment conserves the total balance when the contractor
      exists; otherwise the price leaves the ledger. */
  lemma PayConserves(s: Store, payer: nat, rawJobId: string, now: int)
    requires payer in s.profiles && Pay(s, payer, rawJobId, now).0 == Done
    ensures
      var c := s.contracts[s.jobs[ParseId(rawJobId).value].contractId];
      var after := TotalBalance(Pay(s, payer, rawJobId, now).1.profiles);
      && (c.contractorId in s.profiles ==> after == TotalBalance(s.profiles))
      && (c.contractorId !in s.profiles ==> after == TotalBalance(s.profiles) - s.jobs[ParseId(rawJobId).value].price)
  {
    var id := ParseId(rawJobId).value;
    var (job, c) := ClientJob(s, payer, id).value;
    assert job == s.jobs[id] && c == s.contracts[job.contractId];
    assert Pay(s, payer, rawJobId, now).1 == Settle(s, payer, id, now);
    TransferConserves(s.profiles, payer, c.contractorId, job.price);
  }

  /** Paying the same job again answers `already_paid` with the date of the
      first payment and changes nothing. */
  lemma PayTwice(s: Store, payer: nat, rawJobId: string, now: int, later: int)
    requires payer in s.profiles && Pay(s, payer, rawJobId, now).0 == Done
    ensures var s1 := Pay(s, payer, rawJobId, now).1;
      payer in s1.profiles && Pay(s1, payer, rawJobId, later) == (Failed(AlreadyPaid(Some(now))), s1)
  {
    var id := ParseId(rawJobId).value;
    var s1 := Pay(s, payer, rawJobId, now).1;
    assert s1.jobs[id].contractId == s.jobs[id].contractId;
    assert ClientJob(s1, payer, id).Some?;
  }

  /** Payment keeps the store consistent: the payer's balance cannot go
      negative and the paid job gets its date. */
  lemma PayKeepsConsistent(s: Store, payer: nat, rawJobId: string, now: int)
    requires payer in s.profiles && Consistent(s)
    ensures Consistent(Pay(s, payer, rawJobId, now).1)
  {
  }

  /** A paid job leaves every user's unpaid list; every other job keeps its
      place in every list. */
  lemma PayLeavesUnpaid(s: Store, payer: nat, rawJobId: string, now: int, user: nat)
    requires payer in s.profiles && Pay(s, payer, rawJobId, now).0 == Done
    ensures var s1 := Pay(s, payer, rawJobId, now).1;
      && ParseId(rawJobId).value !in UnpaidJobs(s1, user)
      && forall j :: j != ParseId(rawJobId).value ==> (j in UnpaidJobs(s1, user) <==> j in UnpaidJobs(s, user))
  {
    var id := ParseId(rawJobId).value;
    var s1 := Pay(s, payer, rawJobId, now).1;
    assert s1.jobs == s.jobs[id := s.jobs[id].(paid := true, paymentDate := Some(now))];
    assert !UnpaidFor(s1, user, id);
    forall j | j != id ensures UnpaidFor(s1, user, j) == UnpaidFor(s, user, j) {
      assert j in s1.jobs <==> j in s.jobs;
      if j in s.jobs {
        assert s1.jobs[j] == s.jobs[j];
      }
    }
  }

  /** The transaction: validate the id, read the joined row, run the checks
      in order, then update both balances and the job. Every check precedes
      every write, so a refusal leaves the tables as they were. */
  method PayForJob(db: Ledger, payer: nat, rawJobId: string, now: int) returns (outcome: Outcome)
    requires payer in db.profiles
    modifies db
    ensures (outcome, db.State()) == Pay(old(db.State()), payer, rawJobId, now)
  {
    var parsed := ParseId(rawJobId);
    if parsed.None? {
      return Failed(InvalidJobId);
    }
    var jobId := parsed.value;
    var row := ClientJob(db.State(), payer, jobId);
    if row.None? {
      return Failed(JobNotFound);
    }
    var (job, contract) := row.value;
    if contract.status == Terminated {
      return Failed(ContractTerminated);
    }
    if job.paid {
      return Failed(AlreadyPaid(job.paymentDate));
    }
    var userBalance := db.profiles[payer].balance;
    if userBalance < job.price {
      return Failed(InsuffucientFunds);
    }
    db.profiles := Transfer(db.profiles, payer, contract.contractorId, job.price);
    db.jobs := db.jobs[jobId := job.(paid := true, paymentDate := Some(now))];
    outcome := Done;
  }
}
