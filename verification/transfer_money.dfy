/** Transferring between two accounts: fetch both, run the withdrawal check and
    the pay-in check, both on the SOURCE account, then withdraw from the source,
    pay into the destination and persist source then destination. The two ids
    may be equal; with the lookup modelled as a fixed map, source and destination
    are then the same object. */
module TransferMoneyFeature {
  import opened Services
  import opened Domain
  import opened DataAccess

  /** The two checks of a transfer, in the order they run. Both look only at the
      source account: the destination's pay-in headroom plays no part. When both
      would fail, insufficient funds is the failure reported. */
  function TransferAvailability(from: AccountState, amount: real): (r: Result<bool>)
    ensures r.Err? <==> amount > from.balance || from.paidIn + amount > PayInLimit
    ensures r.Err? ==> (r.error == InsufficientFunds <==> amount > from.balance)
    ensures r.Ok? ==> r.value
  {
    match from.CheckWithdrawnAvailability(amount)
    case Err(e) => Err(e)
    case Ok(withdrawable) =>
      match from.CheckPayInAvailability(amount)
      case Err(e) => Err(e)
      case Ok(payable) => Ok(payable && withdrawable)
  }

  /** A transfer between two distinct accounts, on their states: on success the
      source's balance and withdrawn total drop by the amount, the destination's
      balance and paid-in total rise by it, and the sum of the balances is kept. */
  function Transfer(from: AccountState, to: AccountState, amount: real): (r: Result<(AccountState, AccountState)>)
    ensures r.Err? <==> TransferAvailability(from, amount).Err?
    ensures r.Err? ==> r.error == TransferAvailability(from, amount).error
    ensures r.Ok? ==> r.value.0.balance + r.value.1.balance == from.balance + to.balance
    ensures r.Ok? ==> r.value.0.balance >= 0.0
    ensures r.Ok? ==> r.value.0.balance == from.balance - amount && r.value.0.withdrawn == from.withdrawn - amount
    ensures r.Ok? ==> r.value.0.paidIn == from.paidIn
    ensures r.Ok? ==> r.value.1.balance == to.balance + amount && r.value.1.paidIn == to.paidIn + amount
    ensures r.Ok? ==> r.value.1.withdrawn == to.withdrawn
  {
    match TransferAvailability(from, amount)
    case Err(e) => Err(e)
    case Ok(_) => Ok((from.AfterWithdrawal(amount), to.AfterPayIn(amount)))
  }

  /** A transfer from an account to itself: on success the balance ends where it
      started while the withdrawn total drops, and the paid-in total rises, by the amount. */
  function SelfTransfer(s: AccountState, amount: real): (r: Result<AccountState>)
    ensures r.Err? <==> TransferAvailability(s, amount).Err?
    ensures r.Err? ==> r.error == TransferAvailability(s, amount).error
    ensures r.Ok? ==> r.value.balance == s.balance
    ensures r.Ok? ==> r.value.withdrawn == s.withdrawn - amount && r.value.paidIn == s.paidIn + amount
  {
    match TransferAvailability(s, amount)
    case Err(e) => Err(e)
    case Ok(_) => Ok(s.AfterWithdrawal(amount).AfterPayIn(amount))
  }

  /** Whether a transfer succeeds, and the source's final state, do not depend
      on the destination. */
  lemma TransferIgnoresDestination(from: AccountState, to1: AccountState, to2: AccountState, amount: real)
    ensures Transfer(from, to1, amount).Ok? <==> Transfer(from, to2, amount).Ok?
    ensures Transfer(from, to1, amount).Ok? ==> Transfer(from, to1, amount).value.0 == Transfer(from, to2, amount).value.0
  {
  }

  /** Because only the source's headroom is checked, a successful transfer can
      take the destination's paid-in total past the limit. */
  lemma DestinationCanPassPayInLimit()
    ensures var r := Transfer(AccountState(6000.0, 0.0, 0.0), AccountState(0.0, 0.0, 3000.0), 2000.0);
      r.Ok? && r.value.1.paidIn == 5000.0 && r.value.1.paidIn > PayInLimit
  {
  }

  /** A transfer of 4500 out of a 6000 balance is refused for every destination. */
  lemma SourcePayInLimitRefusesTransfer(to: AccountState)
    ensures Transfer(AccountState(6000.0, 0.0, 0.0), to, 4500.0) == Err(PayInLimitReached)
  {
  }

  /** Conversely, the source's paid-in total can refuse a transfer that the
      destination's own pay-in check would accept. */
  lemma SourceLimitRefusesWhatDestinationAccepts()
    ensures AccountState(0.0, 0.0, 0.0).CheckPayInAvailability(2000.0) == Ok(true)
    ensures Transfer(AccountState(6000.0, 0.0, 3000.0), AccountState(0.0, 0.0, 0.0), 2000.0) == Err(PayInLimitReached)
  {
  }

  /** Amounts are not validated: from any source within the invariants the two
      checks keep (balance not negative, paid-in within the limit), a non-positive
      amount passes both checks, and a negative one moves money the wrong way,
      lowering the destination's balance and paid-in total and raising the source's
      balance. */
  lemma NonPositiveAmountPassesChecks(from: AccountState, to: AccountState, amount: real)
    requires amount <= 0.0 && from.balance >= 0.0 && from.paidIn <= PayInLimit
    ensures var r := Transfer(from, to, amount);
      && r.Ok?
      && r.value.0.balance >= from.balance
      && r.value.1.balance <= to.balance && r.value.1.paidIn <= to.paidIn
    ensures var r := Transfer(from, to, amount);
      amount < 0.0 ==> r.Ok? && r.value.1.balance < to.balance && r.value.1.paidIn < to.paidIn
  {
  }

  /** A negative amount can pass both checks and can leave the destination's
      balance below zero: a witness. */
  lemma NegativeAmountCanOverdrawDestination()
    ensures var r := Transfer(AccountState(100.0, 0.0, 0.0), AccountState(0.0, 0.0, 0.0), -50.0);
      r.Ok? && r.value.1.balance < 0.0
  {
  }

  class TransferMoney {
    const accountRepository: Repository
    const notificationService: Notifier<Persisted>

    constructor (accountRepository: Repository, notificationService: Notifier<Persisted>)
      ensures this.accountRepository == accountRepository
      ensures this.notificationService == notificationService
    {
      this.accountRepository := accountRepository;
      this.notificationService := notificationService;
    }

    /** If either check on the source refuses the amount, nothing changes and
        nothing is notified or persisted. Otherwise, in this order: the source
        takes the withdrawal (possibly notifying its owner of low funds), the
        destination takes the pay-in (possibly notifying its owner of the
        approaching limit), the source is persisted, the destination is
        persisted. With the lookup a fixed map, equal ids give one object on both
        sides, which is withdrawn from, paid into and persisted twice. */
    method Execute(fromAccountId: AccountId, toAccountId: AccountId, amount: real) returns (r: Outcome)
      requires fromAccountId in accountRepository.accounts && toAccountId in accountRepository.accounts
      requires accountRepository.journal == notificationService.journal
      modifies accountRepository.journal
      modifies accountRepository.accounts[fromAccountId], accountRepository.accounts[toAccountId]
      ensures var from, to := accountRepository.accounts[fromAccountId], accountRepository.accounts[toAccountId];
        var check := TransferAvailability(old(from.State()), amount);
        && (check.Err? ==>
              && r == Failed(check.error)
              && from.State() == old(from.State())
              && to.State() == old(to.State())
              && accountRepository.journal.effects == old(accountRepository.journal.effects))
        && (check.Ok? ==>
              && r == Completed
              && accountRepository.journal.effects == old(accountRepository.journal.effects)
                   + Notifications(WithdrawalNotices(old(from.State()).AfterWithdrawal(amount), from.email))
                   + Notifications(PayInNotices(to.State(), to.email))
                   + [Updated(Persisted(from, from.State())), Updated(Persisted(to, to.State()))])
      ensures var from, to := accountRepository.accounts[fromAccountId], accountRepository.accounts[toAccountId];
        from != to ==>
          match Transfer(old(from.State()), old(to.State()), amount)
          case Err(e) => r == Failed(e)
          case Ok(after) => r == Completed && (from.State(), to.State()) == after
      ensures var from, to := accountRepository.accounts[fromAccountId], accountRepository.accounts[toAccountId];
        from == to ==>
          match SelfTransfer(old(from.State()), amount)
          case Err(e) => r == Failed(e)
          case Ok(after) => r == Completed && from.State() == after
    {
      var from := accountRepository.GetAccountById(fromAccountId);
      var to := accountRepository.GetAccountById(toAccountId);

      var isFromAccountAvailableForWithdrawn := from.State().CheckWithdrawnAvailability(amount);
      if isFromAccountAvailableForWithdrawn.Err? {
        return Failed(isFromAccountAvailableForWithdrawn.error);
      }

      // The pay-in check is made on the source account, not the destination.
      var isFromAccountAvailableForPayIn := from.State().CheckPayInAvailability(amount);
      if isFromAccountAvailableForPayIn.Err? {
        return Failed(isFromAccountAvailableForPayIn.error);
      }

      if isFromAccountAvailableForPayIn.value && isFromAccountAvailableForWithdrawn.value {
        from.WithdrawnMoney(amount, notificationService);
        to.PayInMoney(amount, notificationService);
        accountRepository.Update(from);
        accountRepository.Update(to);
      }
      return Completed;
    }
  }
}
