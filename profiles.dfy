/** The profiles controller: a transfer from the caller's balance to another
    profile ("deposit"), capped at a quarter of what the caller still owes
    as a client, run as one exclusive transaction. */
module Profiles {
  import opened Wrappers
  import opened Keys
  import opened Models
  import opened Parsing
  import opened Utils
  import Jobs

  /** Zod's messages for a value that is not a number and for one that is
      not positive. */
  const NotANumber := "Expected number, received nan"
  const NotPositive := "Number must be greater than 0"

  /** `z.object({ amount: z.preprocess(parseInt, z.number().positive()) })`
      applied to the body: the amount, or the issues found. */
  function ParseAmount(rawAmount: string): (r: Result<nat, seq<Issue>>)
    ensures r.Ok? <==> ParseInt(rawAmount).Some? && ParseInt(rawAmount).value > 0
    ensures r.Ok? ==> r.value == ParseInt(rawAmount).value && r.value > 0
    ensures ParseInt(rawAmount).None? ==> r == Err([Issue(["amount"], NotANumber)])
    ensures ParseInt(rawAmount).Some? && ParseInt(rawAmount).value <= 0 ==> r == Err([Issue(["amount"], NotPositive)])
  {
    match ParseInt(rawAmount)
    case None => Err([Issue(["amount"], NotANumber)])
    case Some(n) => if n > 0 then Ok(n) else Err([Issue(["amount"], NotPositive)])
  }

  /** A job counted in the sender's debt: unpaid, on a contract of which the
      sender is the client, whatever the contract's status. */
  predicate Owes(s: Store, sender: nat, id: nat)
  {
    && id in s.jobs
    && !s.jobs[id].paid
    && s.jobs[id].contractId in s.contracts
    && s.contracts[s.jobs[id].contractId].clientId == sender
  }

  function OwedPrice(s: Store, sender: nat): nat -> real
  {
    (id: nat) => if Owes(s, sender, id) then s.jobs[id].price else 0.0
  }

  /** `coalesce(sum(price), 0)` over the jobs the sender owes. */
  function TotalOwed(s: Store, sender: nat): (owed: real)
    ensures (forall id :: id in s.jobs ==> !Owes(s, sender, id)) ==> owed == 0.0
    ensures Consistent(s) ==> owed >= 0.0
  {
    OwedNothing(s, sender);
    var owed := Sum(SortedKeys(s.jobs.Keys), OwedPrice(s, sender));
    assert Consistent(s) ==> owed >= 0.0 by {
      if Consistent(s) {
        OwedNonNegative(s, sender);
      }
    }
    owed
  }

  lemma OwedNothing(s: Store, sender: nat)
    ensures (forall id :: id in s.jobs ==> !Owes(s, sender, id)) ==> Sum(SortedKeys(s.jobs.Keys), OwedPrice(s, sender)) == 0.0
  {
    if forall id :: id in s.jobs ==> !Owes(s, sender, id) {
      var ks := SortedKeys(s.jobs.Keys);
      var f := OwedPrice(s, sender);
      forall k | k in ks ensures f(k) == 0.0 {
      }
      SumBounds(ks, f);
    }
  }

  lemma OwedNonNegative(s: Store, sender: nat)
    requires Consistent(s)
    ensures Sum(SortedKeys(s.jobs.Keys), OwedPrice(s, sender)) >= 0.0
  {
    var ks := SortedKeys(s.jobs.Keys);
    var f := OwedPrice(s, sender);
    forall k | k in ks ensures f(k) >= 0.0 {
      if Owes(s, sender, k) {
        assert s.jobs[k].price >= 0.0;
      }
    }
    SumBounds(ks, f);
  }

  /** When no owed job has a negative price, the debt is at least the
      price of each owed job. */
  lemma OwedAtLeast(s: Store, sender: nat, id: nat)
    requires Owes(s, sender, id)
    requires forall j :: Owes(s, sender, j) ==> s.jobs[j].price >= 0.0
    ensures TotalOwed(s, sender) >= s.jobs[id].price
  {
    var ks := SortedKeys(s.jobs.Keys);
    var f := OwedPrice(s, sender);
    forall j | j in ks ensures f(j) >= 0.0 {
    }
    assert f(id) == s.jobs[id].price;
    SumAtLeast(ks, f, id);
  }

  /** The business checks, in the order the transaction runs them. */
  function DepositRefusal(s: Store, sender: nat, to: nat, amount: real): Option<ApiError>
    requires sender in s.profiles
  {
    if sender == to then Some(DepositToSelfForbidden)
    else if to !in s.profiles then Some(ClientNotFound)
    else if s.profiles[sender].balance < amount then Some(InsuffucientFunds)
    else if amount > 0.25 * TotalOwed(s, sender) then Some(DepositTooLarge(TotalOwed(s, sender)))
    else None
  }

  /** The transaction once both inputs are valid: the checks, then the
      two balance updates. */
  function Transact(s: Store, sender: nat, to: nat, amount: real): (r: (Outcome, Store))
    requires sender in s.profiles
    ensures r.0.Failed? ==> r.1 == s
    ensures r.1.contracts == s.contracts && r.1.jobs == s.jobs && r.1.profiles.Keys == s.profiles.Keys
    ensures r.0 == Done ==>
      && to != sender && to in s.profiles
      && amount <= s.profiles[sender].balance
      && amount <= 0.25 * TotalOwed(s, sender)
      && r.1.profiles == Transfer(s.profiles, sender, to, amount)
      && r.1.profiles[sender].balance == s.profiles[sender].balance - amount
      && r.1.profiles[to].balance == s.profiles[to].balance + amount
      && (forall k :: k in s.profiles && k != sender && k != to ==> r.1.profiles[k] == s.profiles[k])
  {
    match DepositRefusal(s, sender, to, amount)
    case Some(e) => (Failed(e), s)
    case None => (Done, s.(profiles := Transfer(s.profiles, sender, to, amount)))
  }

  /** `POST /balances/deposit/:userId` with body `{amount}` as one atomic
      step: the parameter is validated before the body, both before the
      transaction. */
  function Deposit(s: Store, sender: nat, rawUserId: string, rawAmount: string): (r: (Outcome, Store))
    requires sender in s.profiles
    ensures ParseId(rawUserId).None? ==> r == (Failed(InvalidUserId), s)
    ensures ParseId(rawUserId).Some? && ParseAmount(rawAmount).Err? ==>
      r == (Failed(InvalidRequestBody(IssuesToString(ParseAmount(rawAmount).error))), s)
    ensures r.0.Failed? ==> r.1 == s
    ensures r.1.contracts == s.contracts && r.1.jobs == s.jobs && r.1.profiles.Keys == s.profiles.Keys
    ensures r.0 == Done ==>
      && ParseId(rawUserId).Some? && ParseAmount(rawAmount).Ok?
      && var to := ParseId(rawUserId).value;
         var amount := ParseAmount(rawAmount).value as real;
      && to != sender && to in s.profiles
      && 0.0 < amount <= s.profiles[sender].balance
      && amount <= 0.25 * TotalOwed(s, sender)
      && r.1.profiles == Transfer(s.profiles, sender, to, amount)
      && r.1.profiles[sender].balance == s.profiles[sender].balance - amount
      && r.1.profiles[to].balance == s.profiles[to].balance + amount
      && (forall k :: k in s.profiles && k != sender && k != to ==> r.1.profiles[k] == s.profiles[k])
  {
    match ParseId(rawUserId)
    case None => (Failed(InvalidUserId), s)
    case Some(to) =>
      match ParseAmount(rawAmount)
      case Err(issues) => (Failed(InvalidRequestBody(IssuesToString(issues))), s)
      case Ok(n) => Transact(s, sender, to, n as real)
  }

  /** With valid inputs the checks run in the order: deposit to self,
      recipient missing, insufficient funds, over the cap; the request is
      refused as too large exactly when the amount exceeds a quarter of the
      debt, so an amount equal to the cap goes through. */
  lemma DepositPrecedence(s: Store, sender: nat, rawUserId: string, rawAmount: string)
    requires sender in s.profiles && ParseId(rawUserId).Some? && ParseAmount(rawAmount).Ok?
    ensures
      var to := ParseId(rawUserId).value;
      var amount := ParseAmount(rawAmount).value as real;
      var owed := TotalOwed(s, sender);
      var r := Deposit(s, sender, rawUserId, rawAmount).0;
      && (to == sender ==> r == Failed(DepositToSelfForbidden))
      && (to != sender && to !in s.profiles ==> r == Failed(ClientNotFound))
      && (to != sender && to in s.profiles && s.profiles[sender].balance < amount ==> r == Failed(InsuffucientFunds))
      && (to != sender && to in s.profiles && amount <= s.profiles[sender].balance ==>
            && (r == Failed(DepositTooLarge(owed)) <==> amount > 0.25 * owed)
            && (r == Done <==> amount <= 0.25 * owed))
  {
  }

  /** A sender who owes nothing can never deposit. */
  lemma DepositNeedsDebt(s: Store, sender: nat, rawUserId: string, rawAmount: string)
    requires sender in s.profiles
    requires forall id :: id in s.jobs ==> !Owes(s, sender, id)
    ensures Deposit(s, sender, rawUserId, rawAmount).0 != Done
  {
  }

  /** A deposit conserves the total balance. */
  lemma DepositConserves(s: Store, sender: nat, rawUserId: string, rawAmount: string)
    requires sender in s.profiles
    ensures TotalBalance(Deposit(s, sender, rawUserId, rawAmount).1.profiles) == TotalBalance(s.profiles)
  {
    var r := Deposit(s, sender, rawUserId, rawAmount);
    if r.0 == Done {
      var to, amount := ParseId(rawUserId).value, ParseAmount(rawAmount).value as real;
      assert r == Transact(s, sender, to, amount);
      assert r.1.profiles == Transfer(s.profiles, sender, to, amount);
      TransferConserves(s.profiles, sender, to, amount);
    }
  }

  /** A deposit keeps the store consistent: the sender's balance cannot go
      negative. */
  lemma DepositKeepsConsistent(s: Store, sender: nat, rawUserId: string, rawAmount: string)
    requires sender in s.profiles && Consistent(s)
    ensures Consistent(Deposit(s, sender, rawUserId, rawAmount).1)
  {
  }

  /** Marking one owed job paid, and changing nothing else the debt depends
      on, lowers the debt by that job's price. */
  lemma MarkPaidLowersDebt(s: Store, s1: Store, sender: nat, id: nat)
    requires Owes(s, sender, id) && id in s1.jobs && s1.jobs[id].paid
    requires s1.contracts == s.contracts && s1.jobs.Keys == s.jobs.Keys
    requires forall j :: j in s.jobs && j != id ==> s1.jobs[j] == s.jobs[j]
    ensures TotalOwed(s1, sender) == TotalOwed(s, sender) - s.jobs[id].price
  {
    var ks := SortedKeys(s.jobs.Keys);
    assert SortedKeys(s1.jobs.Keys) == ks;
    var f, g := OwedPrice(s, sender), OwedPrice(s1, sender);
    forall j | j in ks && j != id ensures f(j) == g(j) {
      assert Owes(s, sender, j) == Owes(s1, sender, j);
    }
    SumUpdate(ks, f, g, id);
  }

  /** Paying a job lowers the payer's debt by exactly the job's price. */
  lemma PayLowersDebt(s: Store, payer: nat, rawJobId: string, now: int)
    requires payer in s.profiles && Jobs.Pay(s, payer, rawJobId, now).0 == Done
    ensures var id := ParseId(rawJobId).value;
      TotalOwed(Jobs.Pay(s, payer, rawJobId, now).1, payer) == TotalOwed(s, payer) - s.jobs[id].price
  {
    var id := ParseId(rawJobId).value;
    MarkPaidLowersDebt(s, Jobs.Pay(s, payer, rawJobId, now).1, payer, id);
  }

  /** The transaction: read the debt, check the sender's funds and the cap,
      then update both balances. Every check precedes every write. */
  method DepositMoney(db: Ledger, sender: nat, rawUserId: string, rawAmount: string) returns (outcome: Outcome)
    requires sender in db.profiles
    modifies db
    ensures (outcome, db.State()) == Deposit(old(db.State()), sender, rawUserId, rawAmount)
  {
    var params := ParseId(rawUserId);
    if params.None? {
      return Failed(InvalidUserId);
    }
    var body := ParseAmount(rawAmount);
    if body.Err? {
      return Failed(InvalidRequestBody(IssuesToString(body.error)));
    }
    var clientId := params.value;
    if sender == clientId {
      return Failed(DepositToSelfForbidden);
    }
    if clientId !in db.profiles {
      return Failed(ClientNotFound);
    }
    var sumOfPrices := TotalOwed(db.State(), sender);
    var maxAllowedDeposit := 0.25 * sumOfPrices;
    var wantToDeposit := body.value as real;
    var userBalance := db.profiles[sender].balance;
    if userBalance < wantToDeposit {
      return Failed(InsuffucientFunds);
    }
    if wantToDeposit > maxAllowedDeposit {
      return Failed(DepositTooLarge(sumOfPrices));
    }
    db.profiles := Transfer(db.profiles, sender, clientId, wantToDeposit);
    outcome := Done;
  }
}
