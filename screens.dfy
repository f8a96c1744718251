/** The dialog handlers of the AddTransaction screen and the Dashboard: the checks they
    make on the user's input and on their cached pod list before calling the store.
    Both screens' income and expense dialogs make the same checks; they differ only in
    which variant of the ledger update they call. */
module Screens {
  import opened Data
  import opened Ledger
  import opened Text
  import opened Budget
  import opened PodStore

  /** What a click on Save leads to. */
  datatype Request =
    | NoPods                                  // "Please create a Pod first"
    | InvalidAmount                           // "Please enter a valid amount"
    | InsufficientCachedFunds(pod: Pod)       // "Insufficient funds in … Pod"
    | Submit(pod: Pod, amount: int, expense: bool, note: Option<string>)

  /** The income dialog. `podList` is the screen's cached copy of the pods, `position`
      the spinner's selection, `amount` the parsed input (None when it is not a number). */
  function IncomeRequest(podList: seq<Pod>, position: nat, amount: Option<int>): Request
    requires podList != [] ==> position < |podList|
  {
    if podList == [] then NoPods
    else if amount.None? || amount.value <= 0 then InvalidAmount
    else Submit(podList[position], amount.value, false, Some("Income"))
  }

  /** `description.trim().takeIf { it.isNotEmpty() }` */
  function ExpenseNote(description: string): Option<string> {
    var trimmed := Trim(description);
    if trimmed == [] then None else Some(trimmed)
  }

  /** The expense dialog: the same amount check, then a funds check against the
      cached balance of the selected pod. */
  function ExpenseRequest(podList: seq<Pod>, position: nat, amount: Option<int>, description: string): Request
    requires podList != [] ==> position < |podList|
  {
    if podList == [] then NoPods
    else if amount.None? || amount.value <= 0 then InvalidAmount
    else if podList[position].balance >= amount.value then
      Submit(podList[position], amount.value, true, ExpenseNote(description))
    else
      InsufficientCachedFunds(podList[position])
  }

  /** What reaches the store from the dialogs: a positive amount against the selected
      pod; income is noted "Income"; an expense only when the cached balance covers it,
      with no note exactly when the description is blank. */
  lemma DialogsSubmitOnlyValidRequests(podList: seq<Pod>, position: nat, amount: Option<int>, description: string)
    requires podList != [] ==> position < |podList|
    ensures var r := IncomeRequest(podList, position, amount);
      && (r.Submit? <==> podList != [] && amount.Some? && amount.value > 0)
      && (r.Submit? ==> r == Submit(podList[position], amount.value, false, Some("Income")))
    ensures var r := ExpenseRequest(podList, position, amount, description);
      && (r.Submit? <==> podList != [] && amount.Some? && amount.value > 0 && podList[position].balance >= amount.value)
      && (r.Submit? ==> r.pod == podList[position] && r.amount == amount.value > 0 && r.expense)
      && (r.Submit? ==> (r.note.None? <==> forall k | 0 <= k < |description| :: IsWhitespace(description[k])))
      && (r.Submit? && r.note.Some? ==> r.note.value == Trim(description))
  {
    TrimEmptyIffBlank(description);
  }

  /** When the cached pod is up to date, an expense the dialog lets through also passes
      the check made inside the store transaction. */
  lemma FreshCacheExpenseCommits(pods: map<PodId, PodDoc>, podList: seq<Pod>, position: nat,
                                 amount: Option<int>, description: string)
    requires podList != [] ==> position < |podList|
    requires ExpenseRequest(podList, position, amount, description).Submit?
    requires podList[position].id in pods && Balance(pods[podList[position].id]) == podList[position].balance
    ensures var r := ExpenseRequest(podList, position, amount, description);
      Decide(pods, r.pod.id, r.amount, true) == Commit
  {
  }

  /** Two quick expenses of 60 from a pod holding 100. The cached list does not change
      between the two clicks, so the dialog lets both through on the cached 100; the
      store transaction reads the 40 the first one left and refuses the second. */
  lemma StaleCacheCaughtInTransaction(doc: PodDoc)
    requires doc.balance == Some(100)
    ensures var cached := [ToPod("p", doc)];
      var pods := map["p" := doc];
      var first := ExpenseRequest(cached, 0, Some(60), "");
      var after := pods["p" := ApplyWrites(doc, CombinedWrites(doc, 60, true))];
      var second := ExpenseRequest(cached, 0, Some(60), "");
      && first.Submit? && Decide(pods, "p", 60, true) == Commit
      && second.Submit? && Decide(after, "p", 60, true) == Abort(InsufficientFunds)
  {
    CombinedUpdateEffect(doc, 60, true);
  }

  /** Hands a request to the store, through the screen's variant of the ledger update
      (`dashboard` picks the Dashboard's queued writes); any other request writes
      nothing. */
  method Save(store: LedgerStore, request: Request, dashboard: bool,
              transactionId: string, timestamp: Timestamp) returns (outcome: Option<Outcome>)
    requires store.Valid()
    requires request.Submit? ==> request.amount > 0
    modifies store
    ensures store.Valid()
    ensures !request.Submit? ==> outcome.None? && store.pods == old(store.pods) && store.ledger == old(store.ledger)
    ensures request.Submit? ==> outcome.Some?
    ensures request.Submit? ==>
      var v := Decide(old(store.pods), request.pod.id, request.amount, request.expense);
      && (outcome.value.Committed? <==> v == Commit)
      && (v.Abort? ==> outcome.value == Failed(v.error) && store.pods == old(store.pods) && store.ledger == old(store.ledger))
      && (v == Commit ==>
            var doc := old(store.pods)[request.pod.id];
            var writes := if dashboard then QueuedWrites(doc, request.amount, request.expense)
                          else CombinedWrites(doc, request.amount, request.expense);
            && store.pods == old(store.pods)[request.pod.id := ApplyWrites(doc, writes)]
            && store.ledger == old(store.ledger) + [Transaction(transactionId, request.amount,
                 request.pod.name, request.note, request.expense, Some(timestamp), Some(request.pod.id), Some(request.pod.name))])
    ensures old(store.Reconciled()) ==> store.Reconciled()
    ensures Total(store.pods) == Total(old(store.pods))
      + (if outcome.Some? && outcome.value.Committed? then Change(request.amount, request.expense) else 0)
  {
    if request.Submit? {
      var o;
      if dashboard {
        o := store.RecordQueued(request.pod, request.amount, request.expense, request.note, transactionId, timestamp);
      } else {
        o := store.RecordCombined(request.pod, request.amount, request.expense, request.note, transactionId, timestamp);
      }
      outcome := Some(o);
    } else {
      outcome := None;
    }
  }

  /** The create-pod dialog: the trimmed name, or nothing when it is blank. */
  function PodNameFromInput(input: string): Option<string> {
    var name := Trim(input);
    if name != [] then Some(name) else None
  }

  /** The create-pod dialog: a pod is created exactly when the trimmed name is not
      empty, under that trimmed name, with both numbers 0. */
  method OnCreatePod(store: LedgerStore, input: string, icon: string, newId: PodId) returns (created: bool)
    requires store.Valid() && store.FreshPodId(newId)
    modifies store
    ensures store.Valid()
    ensures created <==> exists k | 0 <= k < |input| :: !IsWhitespace(input[k])
    ensures created ==> store.pods == old(store.pods)[newId := PodDoc(newId, Trim(input), icon, Some(0), Some(0))]
    ensures !created ==> store.pods == old(store.pods)
    ensures store.ledger == old(store.ledger)
    ensures old(store.Reconciled()) ==> store.Reconciled()
  {
    TrimEmptyIffBlank(input);
    var name := PodNameFromInput(input);
    if name.Some? {
      store.CreatePod(newId, name.value, icon);
      created := true;
    } else {
      created := false;
    }
  }

  /** The delete-pod dialog: the selected pod's document goes; nothing else changes. */
  method OnDeletePod(store: LedgerStore, podList: seq<Pod>, which: nat) returns (deleted: Option<PodId>)
    requires podList != [] ==> which < |podList|
    modifies store
    ensures podList == [] <==> deleted.None?
    ensures deleted.Some? ==> deleted.value == podList[which].id && store.pods == old(store.pods) - {podList[which].id}
    ensures deleted.None? ==> store.pods == old(store.pods)
    ensures store.ledger == old(store.ledger)
    ensures old(store.Valid()) ==> store.Valid()
    ensures old(store.Reconciled()) ==> store.Reconciled()
  {
    if podList == [] {
      return None;
    }
    store.DeletePod(podList[which].id);
    deleted := Some(podList[which].id);
  }
}
