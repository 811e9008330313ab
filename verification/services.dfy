/** The notification service as a recording stand-in. The notifier and the
    account repository write to one shared `Journal`, so the order of notices
    relative to persisted updates can be observed. Delivery is not modelled. */
module Services {

  datatype NoticeKind = FundsLow | ApproachingPayInLimit

  /** One notification: what kind it is and the owner's e-mail address it goes to. */
  datatype Notice = Notice(kind: NoticeKind, email: string)

  /** One thing a collaborator was asked to do: send a notice, or persist an
      update (`U` is the record the repository keeps of an update). */
  datatype Effect<U> = Notified(notice: Notice) | Updated(update: U)

  /** The notices as journal entries, in the same order. */
  function Notifications<U>(ns: seq<Notice>): (r: seq<Effect<U>>)
    ensures |r| == |ns|
    ensures forall i :: 0 <= i < |ns| ==> r[i] == Notified(ns[i])
    decreases |ns|
  {
    if ns == [] then [] else [Notified(ns[0])] + Notifications(ns[1..])
  }

  /** The ordered record of every effect the collaborators were asked for. */
  class Journal<U> {
    var effects: seq<Effect<U>>

    constructor ()
      ensures effects == []
    {
      effects := [];
    }
  }

  class Notifier<U> {
    const journal: Journal<U>

    constructor (journal: Journal<U>)
      ensures this.journal == journal
    {
      this.journal := journal;
    }

    method NotifyFundsLow(email: string)
      modifies journal
      ensures journal.effects == old(journal.effects) + [Notified(Notice(FundsLow, email))]
    {
      journal.effects := journal.effects + [Notified(Notice(FundsLow, email))];
    }

    method NotifyApproachingPayInLimit(email: string)
      modifies journal
      ensures journal.effects == old(journal.effects) + [Notified(Notice(ApproachingPayInLimit, email))]
    {
      journal.effects := journal.effects + [Notified(Notice(ApproachingPayInLimit, email))];
    }
  }
}
