/** The "total budget" figure that both screens display, and the per-pod sums of
    the ledger that the pod numbers are expected to match. */
module Budget {
  import opened Data
  import opened Ledger

  /** A snapshot of the pods collection: its documents, each with its key. */
  type Snapshot = seq<(PodId, PodDoc)>

  /** `snapshot.documents.mapNotNull { doc -> doc.toObject(Pod)?.copy(id = doc.id) }` */
  function PodsOf(snapshot: Snapshot): (pods: seq<Pod>)
    ensures |pods| == |snapshot|
    ensures forall i | 0 <= i < |snapshot| :: pods[i] == ToPod(snapshot[i].0, snapshot[i].1)
  {
    if snapshot == [] then [] else [ToPod(snapshot[0].0, snapshot[0].1)] + PodsOf(snapshot[1..])
  }

  /** `pods.sumOf { it.balance }`, the AddTransaction screen's total. */
  function SumBalances(pods: seq<Pod>): int {
    if pods == [] then 0 else pods[0].balance + SumBalances(pods[1..])
  }

  /** `documents.sumOf { doc.getDouble("balance") ?: 0.0 }`, the Dashboard's total. */
  function SumDocBalances(snapshot: Snapshot): int {
    if snapshot == [] then 0 else Balance(snapshot[0].1) + SumDocBalances(snapshot[1..])
  }

  /** The two screens display the same total for the same snapshot. */
  lemma {:induction false} TotalsAgree(snapshot: Snapshot)
    ensures SumBalances(PodsOf(snapshot)) == SumDocBalances(snapshot)
  {
    if snapshot != [] {
      TotalsAgree(snapshot[1..]);
      assert PodsOf(snapshot)[1..] == PodsOf(snapshot[1..]);
    }
  }

  /** The sum of the balances of the pods in the store, in no particular order. */
  ghost function Total(pods: map<PodId, PodDoc>): int
    decreases |pods|
  {
    if pods == map[] then 0
    else
      var id :| id in pods;
      Balance(pods[id]) + Total(pods - {id})
  }

  lemma {:induction false} TotalRemove(pods: map<PodId, PodDoc>, id: PodId)
    requires id in pods
    ensures Total(pods) == Balance(pods[id]) + Total(pods - {id})
    decreases |pods|
  {
    var chosen :| chosen in pods && Total(pods) == Balance(pods[chosen]) + Total(pods - {chosen});
    if chosen != id {
      assert pods - {chosen} - {id} == pods - {id} - {chosen};
      assert |pods - {chosen}| < |pods| by {
        assert (pods - {chosen}).Keys == pods.Keys - {chosen};
      }
      assert |pods - {id}| < |pods| by {
        assert (pods - {id}).Keys == pods.Keys - {id};
      }
      TotalRemove(pods - {chosen}, id);
      TotalRemove(pods - {id}, chosen);
    }
  }

  /** Replacing one pod's document changes the total by the change in that pod's balance;
      adding a new pod adds its balance. */
  lemma TotalUpdate(pods: map<PodId, PodDoc>, id: PodId, doc: PodDoc)
    ensures Total(pods[id := doc]) == Total(pods) - ReadBalance(pods, id) + Balance(doc)
  {
    var updated := pods[id := doc];
    TotalRemove(updated, id);
    assert updated - {id} == pods - {id};
    if id in pods {
      TotalRemove(pods, id);
    } else {
      assert pods - {id} == pods;
    }
  }

  /** Removing a pod takes its balance out of the total. */
  lemma TotalDelete(pods: map<PodId, PodDoc>, id: PodId)
    ensures Total(pods - {id}) == Total(pods) - ReadBalance(pods, id)
  {
    if id in pods {
      TotalRemove(pods, id);
    } else {
      assert pods - {id} == pods;
    }
  }

  /** `snapshot` lists every document of `pods` exactly once, in some order. */
  ghost predicate IsSnapshotOf(snapshot: Snapshot, pods: map<PodId, PodDoc>) {
    && (forall i | 0 <= i < |snapshot| :: snapshot[i].0 in pods && pods[snapshot[i].0] == snapshot[i].1)
    && (forall i, j | 0 <= i < j < |snapshot| :: snapshot[i].0 != snapshot[j].0)
    && (forall id | id in pods :: exists i :: 0 <= i < |snapshot| && snapshot[i].0 == id)
  }

  /** Whatever order a snapshot lists the pods in, the displayed total is the store's
      total of balances. */
  lemma {:induction false} SnapshotTotal(snapshot: Snapshot, pods: map<PodId, PodDoc>)
    requires IsSnapshotOf(snapshot, pods)
    ensures SumDocBalances(snapshot) == Total(pods)
    decreases |snapshot|
  {
    if snapshot == [] {
      assert pods == map[];
    } else {
      var (id, doc) := snapshot[0];
      var rest := snapshot[1..];
      forall k | k in pods - {id}
        ensures exists i :: 0 <= i < |rest| && rest[i].0 == k
      {
        var i :| 0 <= i < |snapshot| && snapshot[i].0 == k;
        assert i != 0;
        assert rest[i - 1].0 == k;
      }
      forall i | 0 <= i < |rest|
        ensures rest[i].0 in pods - {id} && (pods - {id})[rest[i].0] == rest[i].1
      {
        assert rest[i] == snapshot[i + 1];
      }
      assert IsSnapshotOf(rest, pods - {id});
      SnapshotTotal(rest, pods - {id});
      TotalRemove(pods, id);
    }
  }

  /** What the screens show as the total moves by exactly the signed amount when an
      event commits, whichever order the two snapshots list the pods in. */
  lemma DisplayedTotalAfterRecord(before: Snapshot, after: Snapshot, pods: map<PodId, PodDoc>,
                                  id: PodId, amount: int, expense: bool)
    requires id in pods && IsSnapshotOf(before, pods)
    requires IsSnapshotOf(after, pods[id := ApplyWrites(pods[id], CombinedWrites(pods[id], amount, expense))])
    ensures SumBalances(PodsOf(after)) == SumBalances(PodsOf(before)) + Change(amount, expense)
  {
    var doc := ApplyWrites(pods[id], CombinedWrites(pods[id], amount, expense));
    CombinedUpdateEffect(pods[id], amount, expense);
    TotalUpdate(pods, id, doc);
    SnapshotTotal(before, pods);
    SnapshotTotal(after, pods[id := doc]);
    TotalsAgree(before);
    TotalsAgree(after);
  }

  /** The signed amount of a ledger entry. */
  function Signed(t: Transaction): int {
    Change(t.amount, t.expense)
  }

  /** The sum of the signed amounts of the ledger entries recorded against `id`. */
  function LedgerBalance(ledger: seq<Transaction>, id: PodId): int {
    if ledger == [] then 0
    else
      var last := ledger[|ledger| - 1];
      LedgerBalance(ledger[..|ledger| - 1], id) + (if last.podId == Some(id) then Signed(last) else 0)
  }

  /** The sum of the income amounts recorded against `id`. */
  function LedgerIncome(ledger: seq<Transaction>, id: PodId): int {
    if ledger == [] then 0
    else
      var last := ledger[|ledger| - 1];
      LedgerIncome(ledger[..|ledger| - 1], id) + (if last.podId == Some(id) && !last.expense then last.amount else 0)
  }

  /** Appending one entry moves the sums of its own pod only. */
  lemma LedgerAppend(ledger: seq<Transaction>, t: Transaction, id: PodId)
    ensures LedgerBalance(ledger + [t], id)
         == LedgerBalance(ledger, id) + (if t.podId == Some(id) then Signed(t) else 0)
    ensures LedgerIncome(ledger + [t], id)
         == LedgerIncome(ledger, id) + (if t.podId == Some(id) && !t.expense then t.amount else 0)
  {
    assert (ledger + [t])[..|ledger|] == ledger;
  }

  /** A pod that no entry refers to has empty ledger sums. */
  lemma {:induction false} UnreferencedSumsAreZero(ledger: seq<Transaction>, id: PodId)
    requires forall t | t in ledger :: t.podId != Some(id)
    ensures LedgerBalance(ledger, id) == 0 && LedgerIncome(ledger, id) == 0
  {
    if ledger != [] {
      var init := ledger[..|ledger| - 1];
      assert forall t | t in init :: t in ledger;
      UnreferencedSumsAreZero(init, id);
    }
  }

  /** With positive amounts, the signed sum of a pod's entries never exceeds the sum of
      its income entries. */
  lemma {:induction false} LedgerBalanceAtMostIncome(ledger: seq<Transaction>, id: PodId)
    requires forall t | t in ledger :: t.amount > 0
    ensures LedgerBalance(ledger, id) <= LedgerIncome(ledger, id)
  {
    if ledger != [] {
      var init := ledger[..|ledger| - 1];
      assert forall t | t in init :: t in ledger;
      assert ledger[|ledger| - 1] in ledger;
      LedgerBalanceAtMostIncome(init, id);
    }
  }

  /** Every pod's balance is the signed sum of its ledger entries, and its starting
      balance the sum of its income entries. */
  ghost predicate Reconciled(pods: map<PodId, PodDoc>, ledger: seq<Transaction>) {
    forall id | id in pods ::
      Balance(pods[id]) == LedgerBalance(ledger, id) && StartingBalance(pods[id]) == LedgerIncome(ledger, id)
  }

  /** Recording an entry against a pod while moving that pod's numbers by the entry's
      amounts keeps every pod reconciled with the ledger. */
  lemma RecordKeepsReconciled(pods: map<PodId, PodDoc>, ledger: seq<Transaction>,
                              id: PodId, doc: PodDoc, entry: Transaction)
    requires Reconciled(pods, ledger)
    requires id in pods && entry.podId == Some(id)
    requires Balance(doc) == Balance(pods[id]) + Signed(entry)
    requires StartingBalance(doc) == StartingBalance(pods[id]) + (if entry.expense then 0 else entry.amount)
    ensures Reconciled(pods[id := doc], ledger + [entry])
  {
    forall k | k in pods[id := doc]
      ensures Balance(pods[id := doc][k]) == LedgerBalance(ledger + [entry], k)
      ensures StartingBalance(pods[id := doc][k]) == LedgerIncome(ledger + [entry], k)
    {
      LedgerAppend(ledger, entry, k);
    }
  }

  /** A new pod that no entry refers to, with both numbers 0, is reconciled. */
  lemma CreateKeepsReconciled(pods: map<PodId, PodDoc>, ledger: seq<Transaction>, id: PodId, doc: PodDoc)
    requires Reconciled(pods, ledger)
    requires forall t | t in ledger :: t.podId != Some(id)
    requires Balance(doc) == 0 && StartingBalance(doc) == 0
    ensures Reconciled(pods[id := doc], ledger)
  {
    UnreferencedSumsAreZero(ledger, id);
  }
}
