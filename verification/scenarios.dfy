/** The repository's test cases, stated as client code whose assertions follow
    from the contracts of the two operations alone. */
module Scenarios {
  import opened Services
  import opened Domain
  import opened DataAccess
  import opened WithdrawMoneyFeature
  import opened TransferMoneyFeature

  const FromEmail: string := "from@moneybox.com"
  const ToEmail: string := "to@moneybox.com"

  method WithdrawScenario(balance: real, amount: real)
    returns (from: Account, journal: Journal<Persisted>, r: Outcome)
    ensures from.email == FromEmail
    ensures match Withdraw(AccountState(balance, 0.0, 0.0), amount)
      case Err(e) => r == Failed(e) && from.State() == AccountState(balance, 0.0, 0.0) && journal.effects == []
      case Ok(after) => r == Completed && from.State() == after
                        && journal.effects == Notifications(WithdrawalNotices(after, FromEmail)) + [Updated(Persisted(from, after))]
  {
    from := new Account(1, FromEmail, balance, 0.0, 0.0);
    journal := new Journal<Persisted>();
    var repository := new Repository(map[1 := from], journal);
    var notifier := new Notifier(journal);
    var withdraw := new WithdrawMoney(repository, notifier);
    r := withdraw.Execute(1, amount);
  }

  method WithdrawInsufficientFunds()
  {
    var from, journal, r := WithdrawScenario(6000.0, 6500.0);
    assert r == Failed(InsufficientFunds);
    assert from.State() == AccountState(6000.0, 0.0, 0.0);
    assert journal.effects == [];
  }

  method WithdrawWithoutNotice()
  {
    var from, journal, r := WithdrawScenario(6000.0, 2500.0);
    assert Withdraw(AccountState(6000.0, 0.0, 0.0), 2500.0) == Ok(AccountState(3500.0, -2500.0, 0.0));
    assert r == Completed;
    assert from.balance == 3500.0 && from.withdrawn == -2500.0;
    assert journal.effects == [Updated(Persisted(from, AccountState(3500.0, -2500.0, 0.0)))];
  }

  method WithdrawNotifiesFundsLow()
  {
    var from, journal, r := WithdrawScenario(2750.0, 2500.0);
    assert Withdraw(AccountState(2750.0, 0.0, 0.0), 2500.0) == Ok(AccountState(250.0, -2500.0, 0.0));
    assert r == Completed;
    assert from.balance == 250.0 && from.withdrawn == -2500.0;
    assert journal.effects == [Notified(Notice(FundsLow, FromEmail)), Updated(Persisted(from, AccountState(250.0, -2500.0, 0.0)))];
  }

  method TransferScenario(fromBalance: real, amount: real)
    returns (from: Account, to: Account, journal: Journal<Persisted>, r: Outcome)
    ensures from.email == FromEmail && to.email == ToEmail && from != to
    ensures match Transfer(AccountState(fromBalance, 0.0, 0.0), AccountState(2000.0, 0.0, 0.0), amount)
      case Err(e) => r == Failed(e) && from.State() == AccountState(fromBalance, 0.0, 0.0)
                     && to.State() == AccountState(2000.0, 0.0, 0.0) && journal.effects == []
      case Ok(after) => r == Completed && (from.State(), to.State()) == after
                        && journal.effects == Notifications(WithdrawalNotices(after.0, FromEmail))
                             + Notifications(PayInNotices(after.1, ToEmail))
                             + [Updated(Persisted(from, after.0)), Updated(Persisted(to, after.1))]
  {
    from := new Account(1, FromEmail, fromBalance, 0.0, 0.0);
    to := new Account(2, ToEmail, 2000.0, 0.0, 0.0);
    journal := new Journal<Persisted>();
    var repository := new Repository(map[1 := from, 2 := to], journal);
    var notifier := new Notifier(journal);
    var transfer := new TransferMoney(repository, notifier);
    r := transfer.Execute(1, 2, amount);
  }

  method TransferInsufficientFunds()
  {
    var from, to, journal, r := TransferScenario(6000.0, 6500.0);
    assert r == Failed(InsufficientFunds);
    assert from.State() == AccountState(6000.0, 0.0, 0.0);
    assert to.State() == AccountState(2000.0, 0.0, 0.0);
    assert journal.effects == [];
  }

  method TransferSourcePayInLimitReached()
  {
    var from, to, journal, r := TransferScenario(6000.0, 4500.0);
    assert r == Failed(PayInLimitReached);
    assert from.State() == AccountState(6000.0, 0.0, 0.0);
    assert to.State() == AccountState(2000.0, 0.0, 0.0);
    assert journal.effects == [];
  }

  method TransferWithoutNotice()
  {
    var from, to, journal, r := TransferScenario(6000.0, 2500.0);
    assert Transfer(AccountState(6000.0, 0.0, 0.0), AccountState(2000.0, 0.0, 0.0), 2500.0) == Ok((AccountState(3500.0, -2500.0, 0.0), AccountState(4500.0, 0.0, 2500.0)));
    assert from.State() == AccountState(3500.0, -2500.0, 0.0);
    assert to.State() == AccountState(4500.0, 0.0, 2500.0);
    assert journal.effects == [Updated(Persisted(from, from.State())), Updated(Persisted(to, to.State()))];
  }

  method TransferNotifiesFundsLow()
  {
    var from, to, journal, r := TransferScenario(2750.0, 2500.0);
    assert Transfer(AccountState(2750.0, 0.0, 0.0), AccountState(2000.0, 0.0, 0.0), 2500.0) == Ok((AccountState(250.0, -2500.0, 0.0), AccountState(4500.0, 0.0, 2500.0)));
    assert from.State() == AccountState(250.0, -2500.0, 0.0);
    assert to.State() == AccountState(4500.0, 0.0, 2500.0);
    assert journal.effects == [Notified(Notice(FundsLow, FromEmail)),
      Updated(Persisted(from, from.State())), Updated(Persisted(to, to.State()))];
  }

  method TransferNotifiesApproachingLimit()
  {
    var from, to, journal, r := TransferScenario(6000.0, 3750.0);
    assert Transfer(AccountState(6000.0, 0.0, 0.0), AccountState(2000.0, 0.0, 0.0), 3750.0) == Ok((AccountState(2250.0, -3750.0, 0.0), AccountState(5750.0, 0.0, 3750.0)));
    assert from.State() == AccountState(2250.0, -3750.0, 0.0);
    assert to.State() == AccountState(5750.0, 0.0, 3750.0);
    assert journal.effects == [Notified(Notice(ApproachingPayInLimit, ToEmail)),
      Updated(Persisted(from, from.State())), Updated(Persisted(to, to.State()))];
  }

  method TransferNotifiesBoth()
  {
    var from, to, journal, r := TransferScenario(4000.0, 3750.0);
    assert Transfer(AccountState(4000.0, 0.0, 0.0), AccountState(2000.0, 0.0, 0.0), 3750.0) == Ok((AccountState(250.0, -3750.0, 0.0), AccountState(5750.0, 0.0, 3750.0)));
    assert from.State() == AccountState(250.0, -3750.0, 0.0);
    assert to.State() == AccountState(5750.0, 0.0, 3750.0);
    assert journal.effects == [Notified(Notice(FundsLow, FromEmail)), Notified(Notice(ApproachingPayInLimit, ToEmail)),
      Updated(Persisted(from, from.State())), Updated(Persisted(to, to.State()))];
  }
}
