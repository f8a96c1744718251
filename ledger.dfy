/** The arithmetic of one income or expense event against a pod, as the two
    `saveTransactionAndUpdatePod` variants compute it inside a store transaction:
    read the pod's numbers (absent reads as 0), apply the signed amount, abort on a
    negative balance, and queue the field writes that the commit applies together. */
module Ledger {
  import opened Data

  datatype LedgerError = InsufficientFunds | PodNotFound

  datatype Verdict = Commit | Abort(error: LedgerError)

  /** One field write queued on the pod document inside a store transaction. */
  datatype FieldWrite = SetBalance(value: int) | SetStartingBalance(value: int)

  function ApplyWrite(doc: PodDoc, write: FieldWrite): PodDoc {
    match write
    case SetBalance(v) => doc.(balance := Some(v))
    case SetStartingBalance(v) => doc.(startingBalance := Some(v))
  }

  /** What the commit does to the pod document: the queued writes, in order. */
  function ApplyWrites(doc: PodDoc, writes: seq<FieldWrite>): PodDoc
    decreases |writes|
  {
    if writes == [] then doc else ApplyWrites(ApplyWrite(doc, writes[0]), writes[1..])
  }

  lemma ApplyOne(doc: PodDoc, a: FieldWrite)
    ensures ApplyWrites(doc, [a]) == ApplyWrite(doc, a)
  {
    assert [a][1..] == [];
  }

  lemma ApplyTwo(doc: PodDoc, a: FieldWrite, b: FieldWrite)
    ensures ApplyWrites(doc, [a, b]) == ApplyWrite(ApplyWrite(doc, a), b)
  {
    assert [a, b][1..] == [b];
    ApplyOne(ApplyWrite(doc, a), b);
  }

  /** The signed effect of an event on a balance: income adds, an expense subtracts. */
  function Change(amount: int, expense: bool): int {
    if expense then -amount else amount
  }

  /** The pod's balance as read inside the transaction. A document that does not
      exist has no fields, so it reads as 0 like an absent field. */
  function ReadBalance(pods: map<PodId, PodDoc>, id: PodId): int {
    if id in pods then Balance(pods[id]) else 0
  }

  /** The decision the transaction body reaches: it throws when the new balance would
      be negative; otherwise its writes fail when the pod document does not exist. */
  function Decide(pods: map<PodId, PodDoc>, id: PodId, amount: int, expense: bool): (v: Verdict)
    ensures v == Commit <==> id in pods && Balance(pods[id]) + Change(amount, expense) >= 0
    ensures v == Abort(InsufficientFunds) <==> ReadBalance(pods, id) + Change(amount, expense) < 0
  {
    if ReadBalance(pods, id) + Change(amount, expense) < 0 then Abort(InsufficientFunds)
    else if id !in pods then Abort(PodNotFound)
    else Commit
  }

  /** The AddTransaction variant: one `update` carrying both fields. */
  function CombinedWrites(doc: PodDoc, amount: int, expense: bool): seq<FieldWrite> {
    var newBalance := Balance(doc) + Change(amount, expense);
    var newStartingBalance := if !expense then StartingBalance(doc) + amount else StartingBalance(doc);
    [SetBalance(newBalance), SetStartingBalance(newStartingBalance)]
  }

  /** The Dashboard variant: `startingBalance` is queued first and only for income,
      then `balance` on its own. */
  function QueuedWrites(doc: PodDoc, amount: int, expense: bool): seq<FieldWrite> {
    var newBalance := if expense then Balance(doc) - amount else Balance(doc) + amount;
    (if !expense then [SetStartingBalance(StartingBalance(doc) + amount)] else [])
      + [SetBalance(newBalance)]
  }

  /** Income raises both numbers by the amount; an expense lowers the balance and
      leaves the starting balance as it was. Both numbers are written (so both are
      present afterwards) and nothing else in the document changes. */
  lemma CombinedUpdateEffect(doc: PodDoc, amount: int, expense: bool)
    ensures var d := ApplyWrites(doc, CombinedWrites(doc, amount, expense));
      && Balance(d) == (if expense then Balance(doc) - amount else Balance(doc) + amount)
      && StartingBalance(d) == (if expense then StartingBalance(doc) else StartingBalance(doc) + amount)
      && d == doc.(balance := Some(Balance(d)), startingBalance := Some(StartingBalance(d)))
  {
    var w := CombinedWrites(doc, amount, expense);
    ApplyTwo(doc, w[0], w[1]);
    assert w == [w[0], w[1]];
  }

  /** The Dashboard variant has the same effect on the numbers; it never writes
      `startingBalance` for an expense, and nothing else in the document changes. */
  lemma QueuedUpdateEffect(doc: PodDoc, amount: int, expense: bool)
    ensures var d := ApplyWrites(doc, QueuedWrites(doc, amount, expense));
      && Balance(d) == (if expense then Balance(doc) - amount else Balance(doc) + amount)
      && StartingBalance(d) == (if expense then StartingBalance(doc) else StartingBalance(doc) + amount)
      && d == (if expense then doc.(balance := Some(Balance(d)))
               else doc.(balance := Some(Balance(d)), startingBalance := Some(StartingBalance(d))))
  {
    var w := QueuedWrites(doc, amount, expense);
    if expense {
      assert w == [SetBalance(Balance(doc) - amount)];
      ApplyOne(doc, w[0]);
    } else {
      assert w == [w[0], w[1]];
      ApplyTwo(doc, w[0], w[1]);
    }
  }

  /** Both variants leave a pod that reads the same, whatever the starting document.
      The stored documents differ in exactly one case: an expense against a document
      without a `startingBalance` field, which the combined update fills in with 0 and
      the queued one leaves absent. */
  lemma VariantsAgree(key: PodId, doc: PodDoc, amount: int, expense: bool)
    ensures ToPod(key, ApplyWrites(doc, CombinedWrites(doc, amount, expense)))
         == ToPod(key, ApplyWrites(doc, QueuedWrites(doc, amount, expense)))
    ensures ApplyWrites(doc, CombinedWrites(doc, amount, expense))
         == ApplyWrites(doc, QueuedWrites(doc, amount, expense))
        <==> !(expense && doc.startingBalance.None?)
  {
    CombinedUpdateEffect(doc, amount, expense);
    QueuedUpdateEffect(doc, amount, expense);
    var c := ApplyWrites(doc, CombinedWrites(doc, amount, expense));
    var q := ApplyWrites(doc, QueuedWrites(doc, amount, expense));
    if expense && doc.startingBalance.None? {
      assert c.startingBalance != q.startingBalance;
    } else if expense {
      assert doc.startingBalance == Some(StartingBalance(doc));
    }
  }
}
