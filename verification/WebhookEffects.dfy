/** What the consumers of a webhook write: one statement that inserts an events row under
    the consumer's key and moves the transaction it names, or does neither. */
module WebhookEffects {
  import opened Wrappers
  import opened WebhookStore
  import Rows = TransactionRows
  import TransactionStatus

  /** A row of the events table, under a key fixed per (event, consumer), and whether its
      statement moved a transaction. */
  datatype Effect = Effect(key: ConsumerKey, moved: bool)

  /** The events rows and the transactions. */
  datatype Effects = Effects(events: seq<Effect>, rows: seq<Rows.Row>)

  ghost predicate Recorded(events: seq<Effect>, k: ConsumerKey) { exists i :: 0 <= i < |events| && events[i].key == k }

  /** The status change a payment webhook carries. */
  datatype Target = Target(
    providerId: string, ref: Rows.ProviderRef, paymentTransactionId: Option<nat>, to: TransactionStatus.Status,
    allowedFrom: seq<TransactionStatus.Status>)

  function RowOf(rows: seq<Rows.Row>, t: Target): Option<nat> {
    Rows.WebhookTarget(rows, t.providerId, t.ref, t.paymentTransactionId)
  }

  /** The row a target names may take its status. */
  predicate Applies(rows: seq<Rows.Row>, target: Option<Target>) {
    target.Some? && RowOf(rows, target.value).Some? &&
      rows[RowOf(rows, target.value).value].status in target.value.allowedFrom
  }

  function Moved(rows: seq<Rows.Row>, target: Option<Target>, now: int): seq<Rows.Row> {
    if !Applies(rows, target) then rows
    else
      var at := RowOf(rows, target.value).value;
      rows[at := Rows.WebhookApplied(rows[at], target.value.to, target.value.ref, now)]
  }

  /** The single statement: nothing when the key is there already. */
  ghost function AfterPersist(e: Effects, k: ConsumerKey, target: Option<Target>, now: int): Effects {
    if Recorded(e.events, k) then e
    else Effects(e.events + [Effect(k, Applies(e.rows, target))], Moved(e.rows, target, now))
  }

  /** The statement under a new key adds its row last and says there whether it moved a
      transaction: it did exactly if it names one in a status allowed, and then that row
      takes the status and no other row changes. */
  lemma FirstRunWrites(e: Effects, k: ConsumerKey, target: Option<Target>, now: int)
    requires !Recorded(e.events, k)
    ensures var after := AfterPersist(e, k, target, now);
      var at := if target.Some? then RowOf(e.rows, target.value) else None;
      var moves := at.Some? && e.rows[at.value].status in target.value.allowedFrom;
      && after.events == e.events + [Effect(k, moves)]
      && (!moves ==> after.rows == e.rows)
      && (moves ==>
            && |after.rows| == |e.rows|
            && Rows.MovedByWebhook(e.rows[at.value], after.rows[at.value], target.value.to, target.value.ref, now)
            && forall i | 0 <= i < |e.rows| && i != at.value :: after.rows[i] == e.rows[i])
  {
  }

  /** Written twice under one key, whatever the second run would write: once. */
  lemma SecondRunWritesNothing(
      e: Effects, k: ConsumerKey, first: Option<Target>, second: Option<Target>, earlier: int, now: int)
    ensures var once := AfterPersist(e, k, first, earlier);
      Recorded(once.events, k) && AfterPersist(once, k, second, now) == once
  {
    var once := AfterPersist(e, k, first, earlier);
    if !Recorded(e.events, k) { assert once.events[|e.events|].key == k; }
  }

  class EffectLog {
    var events: seq<Effect>
    const transactions: Rows.TransactionRepository

    constructor (transactions: Rows.TransactionRepository)
      ensures this.transactions == transactions && events == []
    {
      this.transactions := transactions;
      events := [];
    }

    function Written(): Effects
      reads this, transactions
    {
      Effects(events, transactions.transactions)
    }

    method PersistEffectsOnce(key: ConsumerKey, target: Option<Target>, now: int) returns (inserted: bool)
      requires transactions.Valid()
      modifies this, transactions
      ensures transactions.Valid()
      ensures inserted <==> !Recorded(old(events), key)
      ensures Written() == AfterPersist(old(Written()), key, target, now)
    {
      for i := 0 to |events|
        invariant forall j | 0 <= j < i :: events[j].key != key
      {
        if events[i].key == key { return false; }
      }
      assert !Recorded(events, key);
      var moved := false;
      if target.Some? {
        var t := target.value;
        moved := transactions.ApplyWebhookStatus(t.providerId, t.ref, t.paymentTransactionId, t.to, t.allowedFrom, now);
      }
      events := events + [Effect(key, moved)];
      return true;
    }
  }
}
