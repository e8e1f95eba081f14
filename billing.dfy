/** The billing page: the ledger of income and expense entries, its summary cards,
    the search, the new-entry dialog and the two-step delete. Amounts are held in
    cents; the save writes the number parsed from the masked field. */
module Billing {
  import opened Wrappers
  import opened Text
  import opened Lists
  import Money

  datatype Kind = Receita | Despesa
  datatype Status = Pago | Pendente

  datatype Transaction = Transaction(
    id: string, description: string, amountCents: int, kind: Kind, date: string, status: Status)

  // ---- the summary cards ----

  function Amount(t: Transaction): int { t.amountCents }

  function IsOf(kind: Kind, status: Status): Transaction -> bool
  {
    (t: Transaction) => t.kind == kind && t.status == status
  }

  function IsKind(kind: Kind): Transaction -> bool
  {
    (t: Transaction) => t.kind == kind
  }

  /** Income already received. */
  function TotalReceitas(ts: seq<Transaction>): int
  {
    SumBy(Filter(ts, IsOf(Receita, Pago)), Amount)
  }

  /** Expenses already paid. */
  function TotalDespesas(ts: seq<Transaction>): int
  {
    SumBy(Filter(ts, IsOf(Despesa, Pago)), Amount)
  }

  /** The current balance: received income minus paid expenses; pending entries do not count. */
  function SaldoAtual(ts: seq<Transaction>): int
  {
    TotalReceitas(ts) - TotalDespesas(ts)
  }

  /** Income still to be received. */
  function PendenteReceber(ts: seq<Transaction>): int
  {
    SumBy(Filter(ts, IsOf(Receita, Pendente)), Amount)
  }

  /** Every income entry is either received or pending: the two cards add up to all income. */
  lemma IncomeSplits(ts: seq<Transaction>)
    ensures TotalReceitas(ts) + PendenteReceber(ts) == SumBy(Filter(ts, IsKind(Receita)), Amount)
  {
    SumByFilterSplit(ts, IsOf(Receita, Pago), IsOf(Receita, Pendente), IsKind(Receita), Amount);
  }

  /** One more entry moves exactly the card of its kind and status by its amount. */
  lemma CardsAfterAdding(ts: seq<Transaction>, t: Transaction)
    ensures TotalReceitas(ts + [t]) == TotalReceitas(ts) + (if t.kind == Receita && t.status == Pago then t.amountCents else 0)
    ensures TotalDespesas(ts + [t]) == TotalDespesas(ts) + (if t.kind == Despesa && t.status == Pago then t.amountCents else 0)
    ensures PendenteReceber(ts + [t]) == PendenteReceber(ts) + (if t.kind == Receita && t.status == Pendente then t.amountCents else 0)
    ensures SaldoAtual(ts + [t]) == SaldoAtual(ts) + (if t.status == Pendente then 0 else if t.kind == Receita then t.amountCents else -t.amountCents)
  {
    SumByFilterSnoc(ts, t, IsOf(Receita, Pago), Amount);
    SumByFilterSnoc(ts, t, IsOf(Despesa, Pago), Amount);
    SumByFilterSnoc(ts, t, IsOf(Receita, Pendente), Amount);
  }

  // ---- search and delete ----

  function DescriptionMatches(term: string): Transaction -> bool
  {
    (t: Transaction) => Matches(t.description, term)
  }

  /** `filteredTransactions`: the entries whose description contains the term, ignoring case. */
  function FilteredTransactions(ts: seq<Transaction>, term: string): (r: seq<Transaction>)
    ensures forall i :: 0 <= i < |r| ==> r[i] in ts && Matches(r[i].description, term)
    ensures forall i :: 0 <= i < |ts| && Matches(ts[i].description, term) ==> ts[i] in r
  {
    FilterMembers(ts, DescriptionMatches(term));
    Filter(ts, DescriptionMatches(term))
  }

  /** The search keeps the ledger's order and multiplicities: it maps a concatenation to
      the concatenation of the results, and one entry to itself or to nothing. */
  lemma FilteredTransactionsInOrder(a: seq<Transaction>, b: seq<Transaction>, t: Transaction, term: string)
    ensures FilteredTransactions(a + b, term) == FilteredTransactions(a, term) + FilteredTransactions(b, term)
    ensures FilteredTransactions([t], term) == (if Matches(t.description, term) then [t] else [])
  {
    FilterInOrder(a, b, t, DescriptionMatches(term));
  }

  function IdOf(t: Transaction): string
  {
    t.id
  }

  /** The ledger after a successful delete. */
  function Without(xs: seq<Transaction>, id: string): seq<Transaction>
  {
    WithoutKey(xs, IdOf, id)
  }

  // ---- the dialog ----

  datatype Form = Form(description: string, amount: string, kind: Kind, date: string, status: Status)

  /** The form as the dialog opens: received income dated today. */
  function DefaultForm(today: string): Form
  {
    Form("", "", Receita, today, Pago)
  }

  /** The row a save inserts; the user id is attached only when someone is signed in. */
  datatype Insert = Insert(
    description: string, amount: real, kind: Kind, date: string, status: Status, userId: Option<string>)

  function InsertOf(f: Form, user: Option<string>): Insert
  {
    Insert(f.description, Money.ParseAmount(f.amount), f.kind, f.date, f.status, user)
  }

  /** An amount typed into the masked field is inserted as its digits read as cents. */
  lemma SavedAmount(f: Form, user: Option<string>, typed: string)
    requires f.amount == Money.CurrencyMask(typed)
    ensures InsertOf(f, user).amount
         == if OnlyDigits(typed) == "" then 0.0 else ParseNat(OnlyDigits(typed)) as real / 100.0
  {
    Money.SaveMasked(typed);
  }

  class BillingPage {
    var transactions: seq<Transaction>
    var searchTerm: string
    var dialogOpen: bool
    var form: Form
    var deleteModalOpen: bool
    var toDeleteId: Option<string>

    constructor(today: string)
      ensures transactions == [] && searchTerm == "" && !dialogOpen && form == DefaultForm(today)
      ensures !deleteModalOpen && toDeleteId == None
    {
      transactions := [];
      searchTerm := "";
      dialogOpen := false;
      form := DefaultForm(today);
      deleteModalOpen := false;
      toDeleteId := None;
    }

    /** `fetchTransactions`: the ledger is replaced when the query succeeds. */
    method Fetched(rows: seq<Transaction>, ok: bool)
      modifies this
      ensures transactions == (if ok then rows else old(transactions))
      ensures searchTerm == old(searchTerm) && dialogOpen == old(dialogOpen) && form == old(form)
      ensures deleteModalOpen == old(deleteModalOpen) && toDeleteId == old(toDeleteId)
    {
      if ok {
        transactions := rows;
      }
    }

    /** `handleCurrencyChange`. */
    method HandleCurrencyChange(input: string)
      modifies this
      ensures form == old(form).(amount := Money.CurrencyMask(input))
      ensures transactions == old(transactions) && searchTerm == old(searchTerm) && dialogOpen == old(dialogOpen)
      ensures deleteModalOpen == old(deleteModalOpen) && toDeleteId == old(toDeleteId)
    {
      form := form.(amount := Money.CurrencyMask(input));
    }

    /** `handleOpenChange`: closing the dialog resets the form to today's default. */
    method HandleOpenChange(open: bool, today: string)
      modifies this
      ensures dialogOpen == open
      ensures form == (if open then old(form) else DefaultForm(today))
      ensures transactions == old(transactions) && searchTerm == old(searchTerm)
      ensures deleteModalOpen == old(deleteModalOpen) && toDeleteId == old(toDeleteId)
    {
      dialogOpen := open;
      if !open {
        form := DefaultForm(today);
      }
    }

    /** `handleSaveTransaction`: needs a description and an amount; the insert goes out
        whether or not someone is signed in, and a successful insert closes the dialog. */
    method SaveTransaction(user: Option<string>, insertOk: bool, today: string) returns (insert: Option<Insert>)
      modifies this
      ensures insert.Some? <==> old(form).description != "" && old(form).amount != ""
      ensures insert.Some? ==> insert.value == InsertOf(old(form), user)
      ensures insert.Some? && insertOk ==> !dialogOpen && form == DefaultForm(today)
      ensures !(insert.Some? && insertOk) ==> dialogOpen == old(dialogOpen) && form == old(form)
      ensures transactions == old(transactions) && searchTerm == old(searchTerm)
      ensures deleteModalOpen == old(deleteModalOpen) && toDeleteId == old(toDeleteId)
    {
      if form.description == "" || form.amount == "" {
        return None;
      }
      insert := Some(InsertOf(form, user));
      if insertOk {
        HandleOpenChange(false, today);
      }
    }

    /** `requestDeleteTransaction`: remembers the entry and opens the confirmation. */
    method RequestDelete(id: string)
      modifies this
      ensures toDeleteId == Some(id) && deleteModalOpen
      ensures transactions == old(transactions) && searchTerm == old(searchTerm)
      ensures dialogOpen == old(dialogOpen) && form == old(form)
    {
      toDeleteId := Some(id);
      deleteModalOpen := true;
    }

    /** `confirmDeleteTransaction`: does nothing without a remembered entry; otherwise the
        entry leaves the ledger when the delete succeeds, and the confirmation closes either
        way. Returns whether the delete was sent. */
    method ConfirmDelete(deleteOk: bool) returns (sent: bool)
      modifies this
      ensures sent == Truthy(old(toDeleteId))
      ensures sent ==> !deleteModalOpen && toDeleteId == None
      ensures !sent ==> deleteModalOpen == old(deleteModalOpen) && toDeleteId == old(toDeleteId)
      ensures transactions == (if sent && deleteOk then Without(old(transactions), old(toDeleteId).value) else old(transactions))
      ensures searchTerm == old(searchTerm) && dialogOpen == old(dialogOpen) && form == old(form)
    {
      if !Truthy(toDeleteId) {
        return false;
      }
      sent := true;
      if deleteOk {
        transactions := Without(transactions, toDeleteId.value);
      }
      deleteModalOpen := false;
      toDeleteId := None;
    }
  }
}
