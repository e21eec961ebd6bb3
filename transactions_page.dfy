/** The transactions page: the list filtered by payment mode, the payment-mode labels, deletion,
    and the edit dialog with its "editing" slot. */
module TransactionsPage {
  import opened Ledger

  /** The payment modes offered by the filter and the edit form, and the label each renders. */
  const PaymentModes: seq<string> := ["CASH", "CARD", "UPI", "NET_BANKING"]
  const ModeLabels: seq<string> := ["💵 Cash", "💳 Card", "📱 UPI", "🏦 Net Banking"]

  /** The filter value that shows every transaction. */
  const AllFilter: string := "all"

  /** The test of `filteredTransactions`: `filter === "all"` or an exact `paymentMode` match. */
  function ShownBy(filter: string): Transaction -> bool {
    (t: Transaction) => filter == AllFilter || t.paymentMode == filter
  }

  /** `filteredTransactions`: with "all", the whole list unchanged; otherwise exactly the
      transactions whose payment mode is `filter`, each as often as in the list, in list order. */
  function FilterTransactions(transactions: seq<Transaction>, filter: string): (r: seq<Transaction>)
    ensures filter == AllFilter ==> r == transactions
    ensures filter != AllFilter ==>
              forall t :: multiset(r)[t] == if t.paymentMode == filter then multiset(transactions)[t] else 0
    ensures IsSubsequence(r, transactions)
  {
    FilterIsSubsequence(transactions, ShownBy(filter));
    if filter == AllFilter then
      FilterKeepsAll(transactions, ShownBy(filter));
      Filter(transactions, ShownBy(filter))
    else
      Filter(transactions, ShownBy(filter))
  }

  /** Applying the same filter to the filtered list changes nothing. */
  lemma FilterTransactionsIdempotent(transactions: seq<Transaction>, filter: string)
    ensures FilterTransactions(FilterTransactions(transactions, filter), filter)
         == FilterTransactions(transactions, filter)
  {
    FilterIdempotent(transactions, ShownBy(filter));
  }

  /** Every per-mode view is an ordered part of the "all" view. */
  lemma ModeViewWithinAll(transactions: seq<Transaction>, filter: string)
    ensures IsSubsequence(FilterTransactions(transactions, filter), FilterTransactions(transactions, AllFilter))
  {
  }

  /** Number of transactions shown under `filter`. */
  function ShownCount(transactions: seq<Transaction>, filter: string): nat {
    |FilterTransactions(transactions, filter)|
  }

  /** One more transaction in front of the list is shown under a mode filter exactly when its
      payment mode is that mode. */
  lemma ShownCountCons(t: Transaction, rest: seq<Transaction>, filter: string)
    ensures ShownCount([t] + rest, filter)
         == (if filter == AllFilter || t.paymentMode == filter then 1 else 0) + ShownCount(rest, filter)
  {
    var ts := [t] + rest;
    assert ts[0] == t && ts[1..] == rest;
  }

  /** A known payment mode matches exactly one of the four mode filters. */
  lemma OneModeMatches(mode: string)
    requires mode in PaymentModes
    ensures (if mode == "CASH" then 1 else 0) + (if mode == "CARD" then 1 else 0)
          + (if mode == "UPI" then 1 else 0) + (if mode == "NET_BANKING" then 1 else 0) == 1
  {
  }

  /** When every transaction carries one of the four payment modes, the four mode views split
      the list: their sizes add up to the size of the "all" view. */
  lemma {:induction false} ModeViewsPartition(transactions: seq<Transaction>)
    requires forall t :: t in transactions ==> t.paymentMode in PaymentModes
    ensures ShownCount(transactions, "CASH") + ShownCount(transactions, "CARD")
          + ShownCount(transactions, "UPI") + ShownCount(transactions, "NET_BANKING")
         == ShownCount(transactions, AllFilter)
  {
    if transactions != [] {
      var t, rest := transactions[0], transactions[1..];
      assert transactions == [t] + rest;
      ShownCountCons(t, rest, "CASH");
      ShownCountCons(t, rest, "CARD");
      ShownCountCons(t, rest, "UPI");
      ShownCountCons(t, rest, "NET_BANKING");
      ShownCountCons(t, rest, AllFilter);
      assert t in transactions;
      OneModeMatches(t.paymentMode);
      assert forall u :: u in rest ==> u in transactions;
      ModeViewsPartition(rest);
    }
  }

  /** The payment-mode cell: four `mode === X && label` pieces side by side, each rendering its
      label when the mode matches and nothing otherwise. Each known mode renders exactly its own
      label and any other string renders nothing. */
  function ModeLabel(mode: string): (r: string)
    ensures forall i :: 0 <= i < |PaymentModes| && mode == PaymentModes[i] ==> r == ModeLabels[i]
    ensures mode !in PaymentModes ==> r == ""
  {
    (if mode == "CASH" then "💵 Cash" else "")
    + (if mode == "CARD" then "💳 Card" else "")
    + (if mode == "UPI" then "📱 UPI" else "")
    + (if mode == "NET_BANKING" then "🏦 Net Banking" else "")
  }

  /** Different known modes render different labels, and none renders the empty cell. */
  lemma ModeLabelsDistinct(m1: string, m2: string)
    requires m1 in PaymentModes && m2 in PaymentModes && m1 != m2
    ensures ModeLabel(m1) != ModeLabel(m2) && ModeLabel(m1) != ""
  {
    assert ModeLabels[0][1] == ' ' && ModeLabels[1][1] == ' ' && ModeLabels[2][1] == ' ';
    assert ModeLabels[0][2] == 'C' && ModeLabels[1][2] == 'C' && ModeLabels[2][2] == 'U';
    assert ModeLabels[0][3] == 'a' && ModeLabels[1][3] == 'a' && ModeLabels[3][2] == 'N';
    assert ModeLabels[0][4] == 's' && ModeLabels[1][4] == 'r';
  }

  /** `transactions.map((t) => t.id === edited.id ? edited : t)`. */
  function ReplaceById(transactions: seq<Transaction>, edited: Transaction): (r: seq<Transaction>)
    ensures |r| == |transactions|
  {
    seq(|transactions|, i requires 0 <= i < |transactions| =>
      if transactions[i].id == edited.id then edited else transactions[i])
  }

  lemma ReplaceByIdTail(transactions: seq<Transaction>, edited: Transaction)
    requires transactions != []
    ensures ReplaceById(transactions, edited)[1..] == ReplaceById(transactions[1..], edited)
    ensures ReplaceById(transactions, edited)[0]
         == if transactions[0].id == edited.id then edited else transactions[0]
  {
  }

  /** Replacing never touches a transaction with another id: deleting the edited id afterwards
      gives the same list as deleting it from the original, so all other transactions keep
      their values and their order. */
  lemma {:induction false} ReplaceKeepsOthers(transactions: seq<Transaction>, edited: Transaction)
    ensures RemoveId(ReplaceById(transactions, edited), edited.id) == RemoveId(transactions, edited.id)
  {
    if transactions != [] {
      var r := ReplaceById(transactions, edited);
      ReplaceByIdTail(transactions, edited);
      ReplaceKeepsOthers(transactions[1..], edited);
    }
  }

  /** Every position keeps its id, and each position whose id matched now holds the edited
      record. */
  lemma ReplaceAtMatches(transactions: seq<Transaction>, edited: Transaction, i: nat)
    requires i < |transactions|
    ensures ReplaceById(transactions, edited)[i].id == transactions[i].id
    ensures transactions[i].id == edited.id ==> ReplaceById(transactions, edited)[i] == edited
  {
  }

  /** Replacing twice with the same record is the same as replacing once. */
  lemma ReplaceIdempotent(transactions: seq<Transaction>, edited: Transaction)
    ensures ReplaceById(ReplaceById(transactions, edited), edited) == ReplaceById(transactions, edited)
  {
  }

  /** An update for an id that no transaction carries leaves the list as it was. */
  lemma ReplaceAbsent(transactions: seq<Transaction>, edited: Transaction)
    requires forall t :: t in transactions ==> t.id != edited.id
    ensures ReplaceById(transactions, edited) == transactions
  {
  }

  /** The page's component state. `transactions` is `None` once the list fetch has stored
      `undefined`: the fetch stores `data.transactions` without checking the response, so an
      error body such as `{ error: ... }` leaves no list behind. */
  class TransactionsView {
    var transactions: Option<seq<Transaction>>
    var editing: Option<Transaction>
    var filter: string

    constructor ()
      ensures transactions == Some([]) && editing == None && filter == AllFilter
    {
      transactions := Some([]);
      editing := None;
      filter := AllFilter;
    }

    /** The rows on screen; `None` when there is no list, where the render's `filter` call
        throws and the page fails. */
    function Displayed(): (r: Option<seq<Transaction>>)
      reads this
      ensures r.None? <==> transactions.None?
      ensures r.Some? ==> IsSubsequence(r.value, transactions.value)
    {
      if transactions.None? then None else Some(FilterTransactions(transactions.value, filter))
    }

    /** The fetch of `/api/transactions` stores the `transactions` field of whatever body came
        back: the list on success, nothing (`None`) for an error body. */
    method ReceiveTransactions(fetched: Option<seq<Transaction>>)
      modifies this
      ensures transactions == fetched
      ensures editing == old(editing) && filter == old(filter)
    {
      transactions := fetched;
    }

    /** The filter drop-down. */
    method SetFilter(value: string)
      modifies this
      ensures filter == value
      ensures transactions == old(transactions) && editing == old(editing)
    {
      filter := value;
    }

    /** `handleDelete`: an OK response removes every transaction with that id; a failed response
        or an exception leaves everything as it was, and so does an OK response when there is no
        list (its `filter` call throws inside the `try`). */
    method HandleDelete(id: string, reply: Reply)
      modifies this
      ensures transactions == if reply == Ok && old(transactions).Some?
                              then Some(RemoveId(old(transactions).value, id)) else old(transactions)
      ensures editing == old(editing) && filter == old(filter)
    {
      if reply == Ok && transactions.Some? {
        transactions := Some(RemoveId(transactions.value, id));
      }
    }

    /** `handleEdit`: open the dialog on a transaction. */
    method HandleEdit(t: Transaction)
      modifies this
      ensures editing == Some(t)
      ensures transactions == old(transactions) && filter == old(filter)
    {
      editing := Some(t);
    }

    /** `handleUpdate`: without an open dialog nothing happens; an OK response replaces every
        transaction with the edited id by the edited record and closes the dialog; a failed
        response, an exception, or an OK response with no list to `map` over changes nothing. */
    method HandleUpdate(reply: Reply)
      modifies this
      ensures filter == old(filter)
      ensures old(editing).None? ==> transactions == old(transactions) && editing == None
      ensures old(editing).Some? && reply == Ok && old(transactions).Some? ==>
                transactions == Some(ReplaceById(old(transactions).value, old(editing).value))
                && editing == None
      ensures old(editing).Some? && (reply != Ok || old(transactions).None?) ==>
                transactions == old(transactions) && editing == old(editing)
    {
      if editing.None? {
        return;
      }
      var edited := editing.value;
      if reply == Ok && transactions.Some? {
        transactions := Some(ReplaceById(transactions.value, edited));
        editing := None;
      }
    }

    /** The amount field of the dialog, which is only on screen while a transaction is being
        edited. */
    method EditAmount(amount: int)
      requires editing.Some?
      modifies this
      ensures editing == Some(old(editing).value.(amount := amount))
      ensures transactions == old(transactions) && filter == old(filter)
    {
      editing := Some(editing.value.(amount := amount));
    }

    /** The description field of the dialog. */
    method EditDescription(description: string)
      requires editing.Some?
      modifies this
      ensures editing == Some(old(editing).value.(description := description))
      ensures transactions == old(transactions) && filter == old(filter)
    {
      editing := Some(editing.value.(description := description));
    }

    /** The payment-mode select of the dialog. */
    method EditPaymentMode(paymentMode: string)
      requires editing.Some?
      modifies this
      ensures editing == Some(old(editing).value.(paymentMode := paymentMode))
      ensures transactions == old(transactions) && filter == old(filter)
    {
      editing := Some(editing.value.(paymentMode := paymentMode));
    }

    /** "Cancel" closes the dialog without touching the list. */
    method CancelEdit()
      modifies this
      ensures editing == None
      ensures transactions == old(transactions) && filter == old(filter)
    {
      editing := None;
    }
  }
}
