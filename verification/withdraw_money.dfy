/** Withdrawing from one account: fetch, check, mutate, persist. */
module WithdrawMoneyFeature {
  import opened Services
  import opened Domain
  import opened DataAccess

  /** What one withdrawal does to the account's state: it fails, changing
      nothing, exactly when the amount exceeds the balance; otherwise the
      balance and the withdrawn total drop by the amount and the balance left
      is not negative. */
  function Withdraw(s: AccountState, amount: real): (r: Result<AccountState>)
    ensures r.Err? <==> amount > s.balance
    ensures r.Err? ==> r.error == InsufficientFunds
    ensures r.Ok? ==> r.value.balance >= 0.0 && r.value.paidIn == s.paidIn
    ensures r.Ok? ==> s.balance - r.value.balance == s.withdrawn - r.value.withdrawn == amount
  {
    match s.CheckWithdrawnAvailability(amount)
    case Err(e) => Err(e)
    case Ok(_) => Ok(s.AfterWithdrawal(amount))
  }

  /** The state after a series of withdrawals, each refused one leaving the account as it was. */
  function WithdrawAll(s: AccountState, amounts: seq<real>): AccountState
    decreases |amounts|
  {
    if amounts == [] then s
    else
      var next := match Withdraw(s, amounts[0]) case Ok(t) => t case Err(_) => s;
      WithdrawAll(next, amounts[1..])
  }

  /** No series of withdrawals takes a non-negative balance below zero. */
  lemma {:induction false} WithdrawAllKeepsBalance(s: AccountState, amounts: seq<real>)
    requires s.balance >= 0.0
    ensures WithdrawAll(s, amounts).balance >= 0.0
    ensures WithdrawAll(s, amounts).paidIn == s.paidIn
    decreases |amounts|
  {
    if amounts != [] {
      var next := match Withdraw(s, amounts[0]) case Ok(t) => t case Err(_) => s;
      WithdrawAllKeepsBalance(next, amounts[1..]);
    }
  }

  class WithdrawMoney {
    const accountRepository: Repository
    const notificationService: Notifier<Persisted>

    constructor (accountRepository: Repository, notificationService: Notifier<Persisted>)
      ensures this.accountRepository == accountRepository
      ensures this.notificationService == notificationService
    {
      this.accountRepository := accountRepository;
      this.notificationService := notificationService;
    }

    /** On a refused amount nothing changes and nothing is notified or
        persisted. Otherwise the account takes the withdrawal, then at most one
        funds-low notice (never a pay-in notice) goes to its owner, and after
        that the mutated account is persisted once. The repository and the
        notifier record into one journal, so this order is part of the contract. */
    method Execute(fromAccountId: AccountId, amount: real) returns (r: Outcome)
      requires fromAccountId in accountRepository.accounts
      requires accountRepository.journal == notificationService.journal
      modifies accountRepository.journal, accountRepository.accounts[fromAccountId]
      ensures var from := accountRepository.accounts[fromAccountId];
        match Withdraw(old(from.State()), amount)
        case Err(e) =>
          && r == Failed(e)
          && from.State() == old(from.State())
          && accountRepository.journal.effects == old(accountRepository.journal.effects)
        case Ok(after) =>
          && r == Completed
          && from.State() == after
          && accountRepository.journal.effects == old(accountRepository.journal.effects)
               + Notifications(WithdrawalNotices(after, from.email))
               + [Updated(Persisted(from, after))]
      ensures forall e <- accountRepository.journal.effects[|old(accountRepository.journal.effects)|..]
        :: e.Notified? ==> e.notice.kind == FundsLow
    {
      var from := accountRepository.GetAccountById(fromAccountId);

      var isFromAccountAvailableForWithdrawn := from.State().CheckWithdrawnAvailability(amount);
      if isFromAccountAvailableForWithdrawn.Err? {
        return Failed(isFromAccountAvailableForWithdrawn.error);
      }

      if isFromAccountAvailableForWithdrawn.value {
        from.WithdrawnMoney(amount, notificationService);
        accountRepository.Update(from);
      }
      return Completed;
    }
  }
}
