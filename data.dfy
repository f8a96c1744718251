/** The records the app keeps in its document store: spending pods and ledger entries.
    Amounts are whole cents; the app's `Double` rounding is not modelled. */
module Data {

  datatype Option<+T> = None | Some(value: T) {
    function GetOr(default: T): T {
      match this
      case Some(v) => v
      case None => default
    }
  }

  type PodId = string

  /** A write-time instant. Kept opaque: nothing in the model orders entries by time. */
  datatype Timestamp = Timestamp(instant: int)

  /** A spending pod as the app holds it in memory (the `Pod` data class):
      every field present, a missing numeric field already read as 0. */
  datatype Pod = Pod(id: PodId, name: string, balance: int, startingBalance: int, icon: string)

  /** A pod document as it sits in the store. The numeric fields may be absent
      (a document written by an older version of the app); readers treat an absent
      field as 0. */
  datatype PodDoc = PodDoc(
    id: string,
    name: string,
    icon: string,
    balance: Option<int>,
    startingBalance: Option<int>)

  /** One ledger entry (the `Transaction` data class). `category` and `podName` are
      copies of the pod's name taken when the entry is written; they are not kept in
      step with the pod afterwards. */
  datatype Transaction = Transaction(
    id: string,
    amount: int,
    category: string,
    note: Option<string>,
    expense: bool,
    timestamp: Option<Timestamp>,
    podId: Option<PodId>,
    podName: Option<string>)

  /** `getDouble(field) ?: 0.0`: an absent numeric field reads as 0. */
  function ReadOrZero(field: Option<int>): (r: int)
    ensures field.None? ==> r == 0
    ensures field.Some? ==> r == field.value
  {
    field.GetOr(0)
  }

  function Balance(doc: PodDoc): int {
    ReadOrZero(doc.balance)
  }

  function StartingBalance(doc: PodDoc): int {
    ReadOrZero(doc.startingBalance)
  }

  /** `doc.toObject(Pod::class.java)?.copy(id = doc.id)`: the store key becomes the
      pod's id and absent numeric fields become 0. */
  function ToPod(key: PodId, doc: PodDoc): Pod {
    Pod(key, doc.name, Balance(doc), StartingBalance(doc), doc.icon)
  }
}
