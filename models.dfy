/** The relational store the controllers read and write: profiles, contracts
    and jobs keyed by id, the error codes the endpoints answer with, and the
    balance transfer both mutating operations end in. */
module Models {
  import opened Wrappers
  import opened Keys

  datatype ProfileType = Client | Contractor

  /** A profile row; `kind` is the column `type`. */
  datatype Profile = Profile(kind: ProfileType, profession: string, firstName: string, lastName: string, balance: real)

  datatype ContractStatus = New | InProgress | Terminated

  datatype Contract = Contract(clientId: nat, contractorId: nat, status: ContractStatus)

  /** A job row; a `paid` column holding null reads as `false`. */
  datatype Job = Job(contractId: nat, price: real, paid: bool, paymentDate: Option<int>)

  datatype Store = Store(profiles: map<nat, Profile>, contracts: map<nat, Contract>, jobs: map<nat, Job>)

  /** The error codes of the endpoints; `InsuffucientFunds` keeps the
      spelling of the code `insuffucient_funds`. */
  datatype ApiError =
    | InvalidJobId | JobNotFound | ContractTerminated | AlreadyPaid(paymentDate: Option<int>) | InsuffucientFunds
    | InvalidUserId | InvalidRequestBody(message: string) | DepositToSelfForbidden | ClientNotFound | DepositTooLarge(owed: real)
    | InvalidStartTime | InvalidEndTime | InvalidRange | NoPaidJobs | InvalidLimit
    | InvalidContractId | NotFound

  /** The `code` field of the JSON error reply. */
  function Code(e: ApiError): string
  {
    match e
    case InvalidJobId => "invalid_job_id"
    case JobNotFound => "job_not_found"
    case ContractTerminated => "contract_terminated"
    case AlreadyPaid(_) => "already_paid"
    case InsuffucientFunds => "insuffucient_funds"
    case InvalidUserId => "invalid_user_id"
    case InvalidRequestBody(_) => "invalid_request_body"
    case DepositToSelfForbidden => "deposit_to_self_forbidden"
    case ClientNotFound => "client_not_found"
    case DepositTooLarge(_) => "deposit_too_large"
    case InvalidStartTime => "invalid_start_time"
    case InvalidEndTime => "invalid_end_time"
    case InvalidRange => "invalid_range"
    case NoPaidJobs => "no_paid_jobs"
    case InvalidLimit => "invalid_limit"
    case InvalidContractId => "invalid_contract_id"
    case NotFound => "not_found"
  }

  /** The reply of a mutating endpoint: `{ok: true}` or an error code. */
  datatype Outcome = Done | Failed(error: ApiError)

  /** The invariants every committed transaction keeps: no negative
      balance, no negative price, and a paid job carries its payment date. */
  predicate Consistent(s: Store)
  {
    && (forall k :: k in s.profiles ==> s.profiles[k].balance >= 0.0)
    && (forall j :: j in s.jobs ==> s.jobs[j].price >= 0.0 && (s.jobs[j].paid ==> s.jobs[j].paymentDate.Some?))
  }

  function Balances(profiles: map<nat, Profile>): nat -> real
  {
    k => if k in profiles then profiles[k].balance else 0.0
  }

  /** The sum of all balances. */
  function TotalBalance(profiles: map<nat, Profile>): real
  {
    Sum(SortedKeys(profiles.Keys), Balances(profiles))
  }

  /** `ContractorId = user or ClientId = user`: the user is a party to the contract. */
  predicate IsParty(c: Contract, user: nat)
  {
    c.clientId == user || c.contractorId == user
  }

  /** `update profiles set balance = balance + delta where id = k`: no
      change when there is no such row. */
  function AddToBalance(profiles: map<nat, Profile>, k: nat, delta: real): (r: map<nat, Profile>)
    ensures r.Keys == profiles.Keys
    ensures k in profiles ==> r[k] == profiles[k].(balance := profiles[k].balance + delta)
    ensures forall j :: j in profiles && j != k ==> r[j] == profiles[j]
  {
    if k in profiles then profiles[k := profiles[k].(balance := profiles[k].balance + delta)] else profiles
  }

  /** Adding `delta` to one existing balance adds `delta` to the total. */
  lemma AddToBalanceTotal(profiles: map<nat, Profile>, k: nat, delta: real)
    ensures k in profiles ==> TotalBalance(AddToBalance(profiles, k, delta)) == TotalBalance(profiles) + delta
    ensures k !in profiles ==> TotalBalance(AddToBalance(profiles, k, delta)) == TotalBalance(profiles)
  {
    var r := AddToBalance(profiles, k, delta);
    if k in profiles {
      var ks := SortedKeys(profiles.Keys);
      assert r.Keys == profiles.Keys;
      assert SortedKeys(r.Keys) == ks;
      var f, g := Balances(profiles), Balances(r);
      forall j | j in ks && j != k ensures f(j) == g(j) {
        assert r[j] == profiles[j];
      }
      SumUpdate(ks, f, g, k);
      assert g(k) == f(k) + delta;
    }
  }

  /** The two statements `balance = balance - amount where id = from` and
      `balance = balance + amount where id = to`, in that order; the second
      changes nothing when no profile has id `to`. */
  function Transfer(profiles: map<nat, Profile>, from: nat, to: nat, amount: real): (r: map<nat, Profile>)
    requires from in profiles
    ensures r.Keys == profiles.Keys
    ensures forall k :: k in profiles && k != from && k != to ==> r[k] == profiles[k]
    ensures from != to ==> r[from] == profiles[from].(balance := profiles[from].balance - amount)
    ensures from != to && to in profiles ==> r[to] == profiles[to].(balance := profiles[to].balance + amount)
    ensures from == to ==> r == profiles
  {
    AddToBalance(AddToBalance(profiles, from, -amount), to, amount)
  }

  /** A transfer between two existing profiles conserves the total balance;
      towards a missing profile the amount leaves the ledger. */
  lemma TransferConserves(profiles: map<nat, Profile>, from: nat, to: nat, amount: real)
    requires from in profiles
    ensures to in profiles ==> TotalBalance(Transfer(profiles, from, to, amount)) == TotalBalance(profiles)
    ensures to !in profiles ==> TotalBalance(Transfer(profiles, from, to, amount)) == TotalBalance(profiles) - amount
  {
    var debited := AddToBalance(profiles, from, -amount);
    AddToBalanceTotal(profiles, from, -amount);
    AddToBalanceTotal(debited, to, amount);
  }

  /** The database handle: the three tables, updated in place. */
  class Ledger {
    var profiles: map<nat, Profile>
    var contracts: map<nat, Contract>
    var jobs: map<nat, Job>

    function State(): Store
      reads this
    {
      Store(profiles, contracts, jobs)
    }

    constructor (s: Store)
      ensures State() == s
    {
      profiles, contracts, jobs := s.profiles, s.contracts, s.jobs;
    }
  }
}
