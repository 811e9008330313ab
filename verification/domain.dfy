/** The account entity: its state, the two availability checks and the two
    mutators that move money and may notify the owner. */
module Domain {
  import opened Services

  /** An account identifier; opaque to the core. */
  type AccountId = nat

  /** Ceiling on the cumulative amount paid into one account. */
  const PayInLimit: real := 4000.0
  /** A balance strictly below this after a withdrawal notifies the owner. */
  const LowFundsThreshold: real := 500.0
  /** Pay-in headroom strictly below this after a pay-in notifies the owner. */
  const PayInHeadroomThreshold: real := 500.0

  /** The two ways a check can refuse an amount (both an InvalidOperationException in the source). */
  datatype Error = InsufficientFunds | PayInLimitReached

  datatype Result<T> = Ok(value: T) | Err(error: Error)

  /** How an operation ends: normally, or by raising one of the errors above. */
  datatype Outcome = Completed | Failed(error: Error)

  /** The monetary state of an account. `withdrawn` is the signed running total of
      withdrawals (it goes down), `paidIn` the running total of pay-ins. */
  datatype AccountState = AccountState(balance: real, withdrawn: real, paidIn: real)
  {
    /** Succeeds, with true, exactly when the balance covers the amount;
        it never answers false. */
    function CheckWithdrawnAvailability(amount: real): (r: Result<bool>)
      ensures r.Err? <==> amount > balance
      ensures r == Ok(true) || r == Err(InsufficientFunds)
    {
      var fromBalance := balance - amount;
      if fromBalance < 0.0 then Err(InsufficientFunds) else Ok(true)
    }

    /** Succeeds, with true, exactly when paying the amount in keeps the
        paid-in total at or under the limit; it never answers false. */
    function CheckPayInAvailability(amount: real): (r: Result<bool>)
      ensures r.Err? <==> paidIn + amount > 4000.0
      ensures r == Ok(true) || r == Err(PayInLimitReached)
    {
      var paid := paidIn + amount;
      if paid > PayInLimit then Err(PayInLimitReached) else Ok(true)
    }

    /** The state after a withdrawal, applied without re-checking anything. */
    function AfterWithdrawal(amount: real): (r: AccountState)
      ensures r.paidIn == paidIn
      ensures balance - r.balance == withdrawn - r.withdrawn == amount
      ensures r.Opening() == Opening()
    {
      AccountState(balance - amount, withdrawn - amount, paidIn)
    }

    /** The state after a pay-in, applied without re-checking anything. */
    function AfterPayIn(amount: real): (r: AccountState)
      ensures r.withdrawn == withdrawn
      ensures r.balance - balance == r.paidIn - paidIn == amount
      ensures r.Opening() == Opening()
    {
      AccountState(balance + amount, withdrawn, paidIn + amount)
    }

    /** The balance the account had before any of its recorded movements. */
    function Opening(): real
    {
      balance - withdrawn - paidIn
    }
  }

  /** The notices a withdrawal sends, given the state it leaves behind. */
  function WithdrawalNotices(after: AccountState, email: string): (r: seq<Notice>)
    ensures |r| <= 1
    ensures r != [] <==> after.balance < 500.0
    ensures forall n <- r :: n == Notice(FundsLow, email)
  {
    if after.balance < LowFundsThreshold then [Notice(FundsLow, email)] else []
  }

  /** The notices a pay-in sends, given the state it leaves behind. */
  function PayInNotices(after: AccountState, email: string): (r: seq<Notice>)
    ensures |r| <= 1
    ensures r != [] <==> after.paidIn > 3500.0
    ensures forall n <- r :: n == Notice(ApproachingPayInLimit, email)
  {
    if PayInLimit - after.paidIn < PayInHeadroomThreshold then [Notice(ApproachingPayInLimit, email)] else []
  }

  /** A withdrawal made after its check succeeded leaves a balance that is not negative. */
  lemma CheckedWithdrawalKeepsBalance(s: AccountState, amount: real)
    requires s.CheckWithdrawnAvailability(amount).Ok?
    ensures s.AfterWithdrawal(amount).balance >= 0.0
  {
  }

  /** A pay-in made after its check succeeded leaves the paid-in total within the limit. */
  lemma CheckedPayInKeepsLimit(s: AccountState, amount: real)
    requires s.CheckPayInAvailability(amount).Ok?
    ensures s.AfterPayIn(amount).paidIn <= PayInLimit
  {
  }

  /** A money movement applied to one account by a mutator. */
  datatype Movement = Out(amount: real) | In(amount: real)

  function Apply(s: AccountState, m: Movement): AccountState
  {
    match m
    case Out(a) => s.AfterWithdrawal(a)
    case In(a) => s.AfterPayIn(a)
  }

  /** The state after applying the movements in order. */
  function Replay(s: AccountState, ms: seq<Movement>): AccountState
    decreases |ms|
  {
    if ms == [] then s else Replay(Apply(s, ms[0]), ms[1..])
  }

  function TotalOut(ms: seq<Movement>): real
    decreases |ms|
  {
    if ms == [] then 0.0 else (if ms[0].Out? then ms[0].amount else 0.0) + TotalOut(ms[1..])
  }

  function TotalIn(ms: seq<Movement>): real
    decreases |ms|
  {
    if ms == [] then 0.0 else (if ms[0].In? then ms[0].amount else 0.0) + TotalIn(ms[1..])
  }

  /** `withdrawn` and `paidIn` are running totals of every movement applied,
      and the balance moves by exactly their net. */
  lemma {:induction false} ReplayCounters(s: AccountState, ms: seq<Movement>)
    ensures Replay(s, ms).withdrawn == s.withdrawn - TotalOut(ms)
    ensures Replay(s, ms).paidIn == s.paidIn + TotalIn(ms)
    ensures Replay(s, ms).balance == s.balance - TotalOut(ms) + TotalIn(ms)
    decreases |ms|
  {
    if ms != [] {
      ReplayCounters(Apply(s, ms[0]), ms[1..]);
    }
  }

  /** The balance always reconciles with the two counters: balance - withdrawn - paidIn
      never changes, whatever movements are applied. */
  lemma ReplayKeepsOpening(s: AccountState, ms: seq<Movement>)
    ensures Replay(s, ms).Opening() == s.Opening()
  {
    ReplayCounters(s, ms);
  }

  /** An account. The id and the owner's e-mail are never changed by the core;
      the three amounts are updated in place by the two mutators. */
  class Account {
    const id: AccountId
    const email: string
    var balance: real
    var withdrawn: real
    var paidIn: real

    constructor (id: AccountId, email: string, balance: real, withdrawn: real, paidIn: real)
      ensures this.id == id && this.email == email
      ensures State() == AccountState(balance, withdrawn, paidIn)
    {
      this.id := id;
      this.email := email;
      this.balance := balance;
      this.withdrawn := withdrawn;
      this.paidIn := paidIn;
    }

    function State(): AccountState
      reads this
    {
      AccountState(balance, withdrawn, paidIn)
    }

    /** Takes the amount off the balance and the withdrawn total, then sends a
        funds-low notice if the new balance is under the threshold. */
    method WithdrawnMoney<U>(amount: real, notificationService: Notifier<U>)
      modifies this, notificationService.journal
      ensures State() == old(State()).AfterWithdrawal(amount)
      ensures notificationService.journal.effects
        == old(notificationService.journal.effects) + Notifications(WithdrawalNotices(State(), email))
    {
      balance := balance - amount;
      withdrawn := withdrawn - amount;
      if balance < LowFundsThreshold {
        notificationService.NotifyFundsLow(email);
      }
    }

    /** Adds the amount to the balance and the paid-in total, then sends an
        approaching-limit notice if the remaining headroom is under the threshold. */
    method PayInMoney<U>(amount: real, notificationService: Notifier<U>)
      modifies this, notificationService.journal
      ensures State() == old(State()).AfterPayIn(amount)
      ensures notificationService.journal.effects
        == old(notificationService.journal.effects) + Notifications(PayInNotices(State(), email))
    {
      balance := balance + amount;
      paidIn := paidIn + amount;
      if PayInLimit - paidIn < PayInHeadroomThreshold {
        notificationService.NotifyApproachingPayInLimit(email);
      }
    }
  }
}
