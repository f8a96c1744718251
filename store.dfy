/** One user's part of the document store: the pods collection and the transactions
    collection, with the operations the screens perform on them. Each method is one
    store transaction: its writes all happen or none do. */
module PodStore {
  import opened Data
  import opened Ledger
  import opened Budget
  import PodProgress

  datatype Outcome = Committed(transactionId: string) | Failed(error: LedgerError)

  class LedgerStore {
    var pods: map<PodId, PodDoc>
    var ledger: seq<Transaction>

    /** No pod's numbers read as negative, and every ledger entry has a positive amount. */
    ghost predicate Valid()
      reads this
    {
      && (forall id | id in pods :: Balance(pods[id]) >= 0 && StartingBalance(pods[id]) >= 0)
      && (forall t | t in ledger :: t.amount > 0)
    }

    /** Every pod's balance is the signed sum of its ledger entries, and its starting
        balance the sum of its income entries. */
    ghost predicate Reconciled()
      reads this
    {
      Budget.Reconciled(pods, ledger)
    }

    /** A newly generated document id: no pod has it and no ledger entry refers to it. */
    ghost predicate FreshPodId(id: PodId)
      reads this
    {
      id !in pods && forall t | t in ledger :: t.podId != Some(id)
    }

    /** A stored pod's balance lies between 0 and its starting balance, so its progress
        bar shows a value from 0 to 100. */
    lemma StoredPodInRange(id: PodId)
      requires Valid() && Reconciled() && id in pods
      ensures 0 <= Balance(pods[id]) <= StartingBalance(pods[id])
      ensures StartingBalance(pods[id]) > 0 ==>
        0 <= PodProgress.Progress(Balance(pods[id]), StartingBalance(pods[id])) <= 100
    {
      LedgerBalanceAtMostIncome(ledger, id);
      if StartingBalance(pods[id]) > 0 {
        PodProgress.ProgressBounds(Balance(pods[id]), StartingBalance(pods[id]));
      }
    }

    constructor ()
      ensures pods == map[] && ledger == []
      ensures Valid() && Reconciled()
    {
      pods := map[];
      ledger := [];
    }

    /** `saveNewPod`: a new pod document with both numbers 0. */
    method CreatePod(id: PodId, name: string, icon: string)
      requires Valid()
      requires FreshPodId(id)
      modifies this
      ensures pods == old(pods)[id := PodDoc(id, name, icon, Some(0), Some(0))]
      ensures ledger == old(ledger)
      ensures Valid()
      ensures old(Reconciled()) ==> Reconciled()
      ensures Total(pods) == Total(old(pods))
    {
      var pod := Pod(id, name, 0, 0, icon);
      var doc := PodDoc(pod.id, pod.name, pod.icon, Some(pod.balance), Some(pod.startingBalance));
      if Reconciled() {
        CreateKeepsReconciled(pods, ledger, id, doc);
      }
      TotalUpdate(pods, id, doc);
      pods := pods[id := doc];
    }

    /** `deletePod`: removes that one document (deleting an absent one is not an error).
        Ledger entries that refer to it stay. */
    method DeletePod(id: PodId)
      modifies this
      ensures pods == old(pods) - {id}
      ensures ledger == old(ledger)
      ensures old(Valid()) ==> Valid()
      ensures old(Reconciled()) ==> Reconciled()
      ensures Total(pods) == Total(old(pods)) - ReadBalance(old(pods), id)
    {
      TotalDelete(pods, id);
      pods := pods - {id};
    }

    /** `saveTransactionAndUpdatePod` of the AddTransaction screen: read the pod, compute
        the new numbers, abort on a negative balance, then write both numbers in one
        `update` and create the ledger entry. The entry's name fields are copied from the
        `pod` the caller passes in. */
    method RecordCombined(pod: Pod, amount: int, expense: bool, note: Option<string>,
                          transactionId: string, timestamp: Timestamp) returns (outcome: Outcome)
      requires Valid()
      requires amount > 0
      modifies this
      ensures var v := Decide(old(pods), pod.id, amount, expense);
        && (v.Abort? ==> outcome == Failed(v.error) && pods == old(pods) && ledger == old(ledger))
        && (v == Commit ==>
              && outcome == Committed(transactionId)
              && pods == old(pods)[pod.id := ApplyWrites(old(pods)[pod.id], CombinedWrites(old(pods)[pod.id], amount, expense))]
              && ledger == old(ledger) + [Transaction(transactionId, amount, pod.name, note, expense,
                                                      Some(timestamp), Some(pod.id), Some(pod.name))])
      ensures Valid()
      ensures forall id | id in old(pods) && id in pods :: StartingBalance(pods[id]) >= StartingBalance(old(pods)[id])
      ensures old(Reconciled()) ==> Reconciled()
      ensures Total(pods) == Total(old(pods)) + (if outcome.Committed? then Change(amount, expense) else 0)
    {
      var newTransaction := Transaction(transactionId, amount, pod.name, note, expense,
                                        Some(timestamp), Some(pod.id), Some(pod.name));
      var snapshot := if pod.id in pods then Some(pods[pod.id]) else None;
      var currentBalance := if snapshot.Some? then ReadOrZero(snapshot.value.balance) else 0;
      var currentStartingBalance := if snapshot.Some? then ReadOrZero(snapshot.value.startingBalance) else 0;

      var change := if expense then -amount else amount;
      var newBalance := currentBalance + change;
      if newBalance < 0 {
        return Failed(InsufficientFunds);
      }
      var newStartingBalance := if !expense then currentStartingBalance + amount else currentStartingBalance;
      var writes := [SetBalance(newBalance), SetStartingBalance(newStartingBalance)];

      // The commit fails when the pod document does not exist.
      if snapshot.None? {
        return Failed(PodNotFound);
      }
      var doc := ApplyWrites(snapshot.value, writes);
      CombinedUpdateEffect(snapshot.value, amount, expense);
      Apply(pod.id, doc, newTransaction);
      outcome := Committed(transactionId);
    }

    /** `saveTransactionAndUpdatePod` of the Dashboard: the same reads and check, but the
        new starting balance is queued as its own `update`, and only for income, before
        the `update` of the balance. */
    method RecordQueued(pod: Pod, amount: int, expense: bool, note: Option<string>,
                        transactionId: string, timestamp: Timestamp) returns (outcome: Outcome)
      requires Valid()
      requires amount > 0
      modifies this
      ensures var v := Decide(old(pods), pod.id, amount, expense);
        && (v.Abort? ==> outcome == Failed(v.error) && pods == old(pods) && ledger == old(ledger))
        && (v == Commit ==>
              && outcome == Committed(transactionId)
              && pods == old(pods)[pod.id := ApplyWrites(old(pods)[pod.id], QueuedWrites(old(pods)[pod.id], amount, expense))]
              && ledger == old(ledger) + [Transaction(transactionId, amount, pod.name, note, expense,
                                                      Some(timestamp), Some(pod.id), Some(pod.name))])
      ensures Valid()
      ensures forall id | id in old(pods) && id in pods :: StartingBalance(pods[id]) >= StartingBalance(old(pods)[id])
      ensures old(Reconciled()) ==> Reconciled()
      ensures Total(pods) == Total(old(pods)) + (if outcome.Committed? then Change(amount, expense) else 0)
    {
      var newTransaction := Transaction(transactionId, amount, pod.name, note, expense,
                                        Some(timestamp), Some(pod.id), Some(pod.name));
      var snapshot := if pod.id in pods then Some(pods[pod.id]) else None;
      var currentBalance := if snapshot.Some? then ReadOrZero(snapshot.value.balance) else 0;
      var newBalance := if expense then currentBalance - amount else currentBalance + amount;
      if newBalance < 0 {
        return Failed(InsufficientFunds);
      }

      var queued: seq<FieldWrite> := [];
      if !expense {
        var currentStartingBalance := if snapshot.Some? then ReadOrZero(snapshot.value.startingBalance) else 0;
        queued := queued + [SetStartingBalance(currentStartingBalance + amount)];
      }
      queued := queued + [SetBalance(newBalance)];

      // The commit fails when the pod document does not exist.
      if snapshot.None? {
        return Failed(PodNotFound);
      }
      var doc := ApplyWrites(snapshot.value, queued);
      QueuedUpdateEffect(snapshot.value, amount, expense);
      Apply(pod.id, doc, newTransaction);
      outcome := Committed(transactionId);
    }

    /** The commit of a successful event: the pod document and the new entry, together. */
    method Apply(id: PodId, doc: PodDoc, entry: Transaction)
      requires Valid()
      requires id in pods && entry.podId == Some(id) && entry.amount > 0
      requires Balance(doc) == Balance(pods[id]) + Signed(entry) && Balance(doc) >= 0
      requires StartingBalance(doc) == StartingBalance(pods[id]) + (if entry.expense then 0 else entry.amount)
      modifies this
      ensures pods == old(pods)[id := doc] && ledger == old(ledger) + [entry]
      ensures Valid()
      ensures forall k | k in old(pods) :: StartingBalance(pods[k]) >= StartingBalance(old(pods)[k])
      ensures old(Reconciled()) ==> Reconciled()
      ensures Total(pods) == Total(old(pods)) + Signed(entry)
    {
      TotalUpdate(pods, id, doc);
      if Reconciled() {
        RecordKeepsReconciled(pods, ledger, id, doc, entry);
      }
      pods := pods[id := doc];
      ledger := ledger + [entry];
    }
  }
}
