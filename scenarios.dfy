/** The outcomes the server's test suite expects of the two transactions.
    The suite runs on a seeded database whose rows are not part of this
    model; each scenario requires only the rows that the suite's own
    assertions reveal and that its request reads, and holds on every store
    that has them, whatever its other rows. The caller of every request is
    profile 1. */
module Scenarios {
  import opened Wrappers
  import opened Models
  import opened Parsing
  import Jobs
  import Profiles
  import Utils

  /** Client 1 with its seeded balance of 1150. */
  predicate CallerRow(s: Store)
  {
    1 in s.profiles && s.profiles[1].balance == 1150.0
  }

  /** Profile 2, the recipient of the deposits, with its seeded balance of 231.11. */
  predicate RecipientRow(s: Store)
  {
    2 in s.profiles && s.profiles[2].balance == 231.11
  }

  /** Job 2: unpaid, price 201, on contract 2, which is in progress between
      client 1 and contractor 6, whose seeded balance is 1214. */
  predicate JobTwoRows(s: Store)
  {
    && 2 in s.jobs && s.jobs[2].contractId == 2 && s.jobs[2].price == 201.0 && !s.jobs[2].paid
    && 2 in s.contracts && s.contracts[2] == Contract(1, 6, InProgress)
    && 6 in s.profiles && s.profiles[6].balance == 1214.0
  }

  /** Job 1 is on a terminated contract of client 1. */
  predicate JobOneRows(s: Store)
  {
    && 1 in s.jobs && s.jobs[1].contractId in s.contracts
    && s.contracts[s.jobs[1].contractId].clientId == 1
    && s.contracts[s.jobs[1].contractId].status == Terminated
  }

  /** Decimal text read by `parseInt`. */
  lemma DecimalText(n: nat, text: string)
    requires text == DecimalString(n)
    ensures ParseId(text) == Some(n) && ParseInt(text) == Some(n)
  {
    ParseIntDecimal(n, "");
    assert text + "" == text;
  }

  // The scenarios hold for every request text that reads as the ids and
  // amounts of the test requests: `DecimalText` and `Amount` show that the
  // decimal text of each value does.

  /** Client 1 pays job 2, which moves 201: 1150 - 201 and 1214 + 201. */
  lemma PayJobTwo(s: Store, rawJobId: string, now: int)
    requires CallerRow(s) && JobTwoRows(s) && ParseId(rawJobId) == Some(2)
    ensures var (r, s1) := Jobs.Pay(s, 1, rawJobId, now);
      && r == Done
      && s1.profiles[1].balance == 949.0 && s1.profiles[6].balance == 1415.0
      && (forall k :: k in s.profiles && k != 1 && k != 6 ==> s1.profiles[k] == s.profiles[k])
      && s1.jobs[2].paid && s1.jobs[2].paymentDate == Some(now)
  {
  }

  /** Paying job 2 a second time is refused as already paid, and nothing moves. */
  lemma PayJobTwoTwice(s: Store, rawJobId: string, now: int)
    requires CallerRow(s) && JobTwoRows(s) && ParseId(rawJobId) == Some(2)
    ensures var s1 := Jobs.Pay(s, 1, rawJobId, now).1;
      Jobs.Pay(s1, 1, rawJobId, now + 1) == (Failed(AlreadyPaid(Some(now))), s1)
  {
    PayJobTwo(s, rawJobId, now);
    Jobs.PayTwice(s, 1, rawJobId, now, now + 1);
  }

  /** Job 1 is on a terminated contract. */
  lemma PayTerminated(s: Store, rawJobId: string, now: int)
    requires 1 in s.profiles && JobOneRows(s) && ParseId(rawJobId) == Some(1)
    ensures Jobs.Pay(s, 1, rawJobId, now) == (Failed(ContractTerminated), s)
  {
  }

  /** "hello" is no job id, whatever the store holds. */
  lemma PayHello(s: Store, now: int)
    requires 1 in s.profiles
    ensures Jobs.Pay(s, 1, "hello", now) == (Failed(InvalidJobId), s)
  {
    ParseIntNoDigits("hello");
  }

  /** A balance of 100 does not cover job 2. */
  lemma PayTooPoor(s: Store, rawJobId: string, now: int)
    requires 1 in s.profiles && JobTwoRows(s) && ParseId(rawJobId) == Some(2)
    ensures var poor := s.(profiles := s.profiles[1 := s.profiles[1].(balance := 100.0)]);
      Jobs.Pay(poor, 1, rawJobId, now) == (Failed(InsuffucientFunds), poor)
  {
  }

  /** Reads the amount text as the positive amount it denotes. */
  lemma Amount(n: nat, text: string)
    requires n > 0 && text == DecimalString(n)
    ensures Profiles.ParseAmount(text) == Ok(n)
  {
    DecimalText(n, text);
  }

  /** Client 1 deposits 10 into profile 2: 1150 - 10 and 231.11 + 10. The
      cap allows it because client 1 still owes job 2, whose price of 201
      alone puts the cap above 10. */
  lemma DepositTen(s: Store, rawUserId: string, rawAmount: string)
    requires CallerRow(s) && RecipientRow(s) && JobTwoRows(s)
    requires forall j :: Profiles.Owes(s, 1, j) ==> s.jobs[j].price >= 0.0
    requires ParseId(rawUserId) == Some(2) && Profiles.ParseAmount(rawAmount) == Ok(10)
    ensures var (r, s1) := Profiles.Deposit(s, 1, rawUserId, rawAmount);
      && r == Done
      && s1.profiles[1].balance == 1140.0 && s1.profiles[2].balance == 241.11
      && (forall k :: k in s.profiles && k != 1 && k != 2 ==> s1.profiles[k] == s.profiles[k])
  {
    Profiles.OwedAtLeast(s, 1, 2);
    assert Profiles.TotalOwed(s, 1) >= 201.0;
    assert Profiles.Deposit(s, 1, rawUserId, rawAmount) == Profiles.Transact(s, 1, 2, 10.0);
  }

  /** An invalid user id is reported even though the amount 0 is invalid too. */
  lemma DepositBadUser(s: Store)
    requires 1 in s.profiles
    ensures Profiles.Deposit(s, 1, "hello", "0") == (Failed(InvalidUserId), s)
  {
    ParseIntNoDigits("hello");
  }

  /** An amount that is not a number is reported with the issue's path and message. */
  lemma DepositBadAmount(s: Store)
    requires 1 in s.profiles
    ensures Profiles.Deposit(s, 1, "2", "hello") ==
      (Failed(InvalidRequestBody("amount: " + Profiles.NotANumber)), s)
  {
    DecimalText(2, "2");
    ParseIntNoDigits("hello");
    var issues := [Utils.Issue(["amount"], Profiles.NotANumber)];
    assert Profiles.ParseAmount("hello") == Err(issues);
    assert Utils.Join(["amount"], ",") == "amount";
    assert Utils.IssuesToString(issues) == Utils.Describe(issues[0]);
    assert "amount" + ": " == "amount: ";
  }

  /** No profile has id 10. */
  lemma DepositMissingRecipient(s: Store, rawUserId: string, rawAmount: string)
    requires 1 in s.profiles && 10 !in s.profiles
    requires ParseId(rawUserId) == Some(10) && Profiles.ParseAmount(rawAmount).Ok?
    ensures Profiles.Deposit(s, 1, rawUserId, rawAmount) == (Failed(ClientNotFound), s)
  {
  }

  /** Client 1 cannot deposit to itself, whatever the amount. */
  lemma DepositToSelf(s: Store, rawUserId: string, rawAmount: string)
    requires 1 in s.profiles && ParseId(rawUserId) == Some(1) && Profiles.ParseAmount(rawAmount).Ok?
    ensures Profiles.Deposit(s, 1, rawUserId, rawAmount) == (Failed(DepositToSelfForbidden), s)
  {
  }

  /** 10000 exceeds the balance of 1150. */
  lemma DepositTooMuch(s: Store, rawUserId: string, rawAmount: string)
    requires CallerRow(s) && 2 in s.profiles
    requires ParseId(rawUserId) == Some(2) && Profiles.ParseAmount(rawAmount) == Ok(10000)
    ensures Profiles.Deposit(s, 1, rawUserId, rawAmount) == (Failed(InsuffucientFunds), s)
  {
  }

  /** 300 is within the balance of 1150, so it is refused as too large
      exactly when client 1 owes less than four times 300, and the reply
      carries the debt. The seeded debt is not visible in the test text;
      the test expects the refusal, which holds for any debt below 1200. */
  lemma DepositOverCap(s: Store, rawUserId: string, rawAmount: string)
    requires CallerRow(s) && 2 in s.profiles
    requires ParseId(rawUserId) == Some(2) && Profiles.ParseAmount(rawAmount) == Ok(300)
    ensures Profiles.TotalOwed(s, 1) < 1200.0 ==>
      Profiles.Deposit(s, 1, rawUserId, rawAmount) == (Failed(DepositTooLarge(Profiles.TotalOwed(s, 1))), s)
    ensures Profiles.TotalOwed(s, 1) >= 1200.0 ==> Profiles.Deposit(s, 1, rawUserId, rawAmount).0 == Done
  {
  }
}
