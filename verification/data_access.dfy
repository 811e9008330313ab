/** The account repository as a stand-in: a given lookup from id to account,
    and the updates the core asks it to persist, appended to the shared journal. */
module DataAccess {
  import opened Services
  import opened Domain

  /** One call of Update: the account passed and the state it had at that moment. */
  datatype Persisted = Persisted(account: Account, state: AccountState)

  class Repository {
    const accounts: map<AccountId, Account>
    const journal: Journal<Persisted>

    constructor (accounts: map<AccountId, Account>, journal: Journal<Persisted>)
      ensures this.accounts == accounts && this.journal == journal
    {
      this.accounts := accounts;
      this.journal := journal;
    }

    function GetAccountById(id: AccountId): Account
      requires id in accounts
    {
      accounts[id]
    }

    method Update(account: Account)
      modifies journal
      ensures journal.effects == old(journal.effects) + [Updated(Persisted(account, account.State()))]
    {
      journal.effects := journal.effects + [Updated(Persisted(account, account.State()))];
    }
  }
}
