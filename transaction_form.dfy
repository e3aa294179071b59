/** The transaction editor (components/financials/TransactionForm.tsx): the
    fields it loads from a transaction or resets for a new one, the checks
    and the sign rule of its save, and the categories it offers. Number
    parsing and printing are parameters (`parse`, `render`); a date is the
    text it is stored as. */
module TransactionForm {
  import opened Wrappers
  import opened Text
  import opened Lists
  import opened Schema
  import TransactionList

  /** The form's fields, as one snapshot. */
  datatype Fields = Fields(
    isEditing: bool,
    title: string,
    description: string,
    notes: string,
    amount: string,
    accountId: Option<int>,
    categoryId: Option<int>,
    transactionDate: string,
    kind: TxType,
    isCorporate: bool)

  /** What a save sends: the transaction without its `profile_id`. */
  datatype TxData = TxData(
    title: string,
    description: string,
    notes: string,
    amount: real,
    accountId: int,
    categoryId: Option<int>,
    transactionDate: string,
    isCorporate: bool)

  /** The backend call a save makes. */
  datatype SaveCall = Update(id: int, data: TxData) | Add(data: TxData)

  const MissingFields: string := "Título, Valor e Conta são campos obrigatórios"
  const NotANumber: string := "O valor deve ser um número válido"

  /** The stored amount: an expense is never positive, an income never
      negative, and either keeps the magnitude of what was typed. */
  function SignedAmount(kind: TxType, x: real): (r: real)
    ensures kind == Expense ==> r <= 0.0
    ensures kind == Income ==> r >= 0.0
    ensures TransactionList.Abs(r) == TransactionList.Abs(x)
  {
    if kind == Expense then -TransactionList.Abs(x) else TransactionList.Abs(x)
  }

  /** The type a loaded transaction gets from its sign: zero loads as income. */
  function KindOf(amount: real): (r: TxType)
    ensures r == Income <==> amount >= 0.0
  {
    if amount >= 0.0 then Income else Expense
  }

  /** Reading the type off the sign and storing the magnitude with that
      type's sign gives the amount back. */
  lemma SignRoundTrip(amount: real)
    ensures SignedAmount(KindOf(amount), TransactionList.Abs(amount)) == amount
  {
  }

  /** The list and the form disagree about zero: the list shows it as an
      expense, the form loads it as an income. For any other amount they
      agree. */
  lemma ZeroDiscrepancy(t: Transaction)
    ensures t.amount == 0.0 ==> KindOf(t.amount) == Income && !TransactionList.IsIncome(t)
    ensures t.amount != 0.0 ==> (KindOf(t.amount) == Income <==> TransactionList.IsIncome(t))
  {
  }

  /** `transaction?.category_id || null`: a missing id and the id 0 both
      become null. */
  function KeptCategory(id: Option<int>): (r: Option<int>)
    ensures r.Some? <==> id.Some? && id.value != 0
    ensures r.Some? ==> r == id
  {
    if id.Some? && id.value != 0 then id else None
  }

  /** The account a new transaction starts on: the first one, if any. */
  function DefaultAccount(accounts: seq<Account>): (r: Option<int>)
    ensures r.None? <==> |accounts| == 0
    ensures r.Some? ==> r.value == accounts[0].id
  {
    if |accounts| > 0 then Some(accounts[0].id) else None
  }

  /** The category a new transaction starts on: the FIRST expense category,
      or null when there is none. */
  function DefaultCategory(categories: seq<Category>): (r: Option<int>)
    ensures r.None? <==> forall i :: 0 <= i < |categories| ==> categories[i].kind != Expense
    ensures forall i ::
              0 <= i < |categories| && categories[i].kind == Expense &&
              (forall j :: 0 <= j < i ==> categories[j].kind != Expense)
              ==> r == Some(categories[i].id)
  {
    var holds := (c: Category) => c.kind == Expense;
    var found := Find(categories, holds);
    assert forall i :: IsFirstMatch(categories, holds, i) ==> found == Some(categories[i]) by {
      forall i | IsFirstMatch(categories, holds, i) ensures found == Some(categories[i]) {
        FindAt(categories, holds, i);
      }
    }
    if found.Some? then Some(found.value.id) else None
  }

  /** The fields after the load effect when a transaction is passed in:
      its own, with its magnitude printed by `render` (`String`) and its
      type read off its sign. */
  function Opened(t: Transaction, render: real -> string): (r: Fields)
    ensures r.isEditing
    ensures r.kind == Income <==> t.amount >= 0.0
    ensures r.amount == render(TransactionList.Abs(t.amount))
    ensures r.accountId == Some(t.accountId) && r.categoryId == KeptCategory(t.categoryId)
    ensures r.title == Or(t.title, "") && r.notes == Or(t.notes, "") && r.description == t.description
    ensures r.transactionDate == t.transactionDate
    ensures r.isCorporate <==> t.isCorporate == Some(true)
  {
    Fields(true, Or(t.title, ""), t.description, Or(t.notes, ""), render(TransactionList.Abs(t.amount)),
           Some(t.accountId), KeptCategory(t.categoryId), t.transactionDate, KindOf(t.amount),
           t.isCorporate.GetOr(false))
  }

  /** The fields after the load effect for a new transaction dated `now`:
      empty texts, an expense on the default account and category. */
  function Cleared(accounts: seq<Account>, categories: seq<Category>, now: string): (r: Fields)
    ensures !r.isEditing && r.kind == Expense && !r.isCorporate
    ensures |r.title| == 0 && |r.description| == 0 && |r.notes| == 0 && |r.amount| == 0
    ensures r.accountId == DefaultAccount(accounts) && r.categoryId == DefaultCategory(categories)
    ensures r.transactionDate == now
  {
    Fields(false, "", "", "", "", DefaultAccount(accounts), DefaultCategory(categories), now, Expense, false)
  }

  /** A new form cannot be saved as it is: its title and amount are empty. */
  lemma ClearedIsIncomplete(accounts: seq<Account>, categories: seq<Category>, now: string)
    ensures !Complete(Cleared(accounts, categories, now))
  {
  }

  /** The first check of a save: title, amount text and account are all
      truthy (the account id 0 is falsy). */
  predicate Complete(f: Fields) {
    |f.title| > 0 && |f.amount| > 0 && f.accountId.Some? && f.accountId.value != 0
  }

  /** The text handed to `parseFloat`: only the first comma becomes a point. */
  function Decimal(amount: string): (r: string)
    ensures |r| == |amount|
    ensures forall i :: 0 <= i < |amount| ==>
      r[i] == (if amount[i] == ',' && forall j :: 0 <= j < i ==> amount[j] != ',' then '.' else amount[i])
  {
    ReplaceFirst(amount, ',', '.')
  }

  /** `handleSave` up to the backend call. An incomplete form and an amount
      that does not parse are refused with their alerts and call nothing.
      Otherwise the fields are sent as they are, the amount signed by the
      type, as an update of the loaded transaction in edit mode and as an
      insert otherwise. */
  function SaveRequest(f: Fields, transaction: Option<Transaction>, parse: string -> Option<real>): (r: Result<SaveCall>)
    ensures !Complete(f) ==> r == Err(Error(MissingFields))
    ensures Complete(f) && parse(Decimal(f.amount)).None? ==> r == Err(Error(NotANumber))
    ensures r.Ok? <==> Complete(f) && parse(Decimal(f.amount)).Some?
    ensures r.Ok? ==> (r.value.Update? <==> f.isEditing && transaction.Some?)
    ensures r.Ok? && r.value.Update? ==> r.value.id == transaction.value.id
    ensures r.Ok? ==> (r.value.data ==
      TxData(f.title, f.description, f.notes, SignedAmount(f.kind, parse(Decimal(f.amount)).value),
             f.accountId.value, f.categoryId, f.transactionDate, f.isCorporate))
  {
    if !Complete(f) then Err(Error(MissingFields))
    else
      var number := parse(Decimal(f.amount));
      if number.None? then Err(Error(NotANumber))
      else
        var data := TxData(f.title, f.description, f.notes, SignedAmount(f.kind, number.value),
                           f.accountId.value, f.categoryId, f.transactionDate, f.isCorporate);
        if f.isEditing && transaction.Some? then Ok(Update(transaction.value.id, data)) else Ok(Add(data))
  }

  /** Opening a transaction and saving it untouched updates it with its own
      amount and fields, provided `parse` reads back what `render` printed
      and the loaded form passes the first check. */
  lemma LoadSaveRoundTrip(t: Transaction, render: real -> string, parse: string -> Option<real>)
    requires parse(Decimal(render(TransactionList.Abs(t.amount)))) == Some(TransactionList.Abs(t.amount))
    requires Complete(Opened(t, render))
    ensures SaveRequest(Opened(t, render), Some(t), parse) ==
      Ok(Update(t.id, TxData(Or(t.title, ""), t.description, Or(t.notes, ""), t.amount, t.accountId,
                             KeptCategory(t.categoryId), t.transactionDate, t.isCorporate == Some(true))))
  {
    SignRoundTrip(t.amount);
  }

  /** `filteredCategories`: exactly the categories of the current type, in
      their order. */
  function CategoryChoices(categories: seq<Category>, kind: TxType): (r: seq<Category>)
    ensures forall k :: 0 <= k < |r| ==> r[k] in categories && r[k].kind == kind
    ensures forall i :: 0 <= i < |categories| && categories[i].kind == kind ==> categories[i] in r
    ensures IsSubsequence(r, categories)
    ensures |r| == Count(categories, (c: Category) => c.kind == kind)
  {
    Filter(categories, (c: Category) => c.kind == kind)
  }

  /** The form's state: the fields of its `useState` hooks, held together,
      and the transaction it was opened with. Each `setX` call updates one
      field of the record. */
  class Form {
    var transaction: Option<Transaction>
    var fields: Fields

    /** The initial state, before the load effect has run. */
    constructor (now: string)
      ensures transaction.None?
      ensures fields == Fields(false, "", "", "", "", None, None, now, Expense, false)
    {
      transaction := None;
      fields := Fields(false, "", "", "", "", None, None, now, Expense, false);
    }

    /** The load effect, run for the transaction passed in (or none): every
        field is set, from the transaction or to its default. */
    method Load(t: Option<Transaction>, accounts: seq<Account>, categories: seq<Category>,
                render: real -> string, now: string)
      modifies this
      ensures transaction == t
      ensures fields == if t.Some? then Opened(t.value, render) else Cleared(accounts, categories, now)
    {
      transaction := t;
      if t.Some? {
        var tx := t.value;
        fields := fields.(isEditing := true, title := Or(tx.title, ""), description := tx.description,
                          notes := Or(tx.notes, ""), amount := render(TransactionList.Abs(tx.amount)),
                          accountId := Some(tx.accountId), categoryId := KeptCategory(tx.categoryId),
                          transactionDate := tx.transactionDate, kind := KindOf(tx.amount),
                          isCorporate := tx.isCorporate.GetOr(false));
      } else {
        fields := fields.(isEditing := false, title := "", description := "", notes := "", amount := "",
                          accountId := DefaultAccount(accounts), categoryId := DefaultCategory(categories),
                          transactionDate := now, kind := Expense, isCorporate := false);
      }
    }

    /** The income/expense toggle. */
    method ChooseKind(k: TxType)
      modifies this
      ensures transaction == old(transaction)
      ensures fields == old(fields).(kind := k)
    {
      fields := fields.(kind := k);
    }

    /** Typing or picking in the other inputs: the title box, the account
        and category pickers, the notes box and the corporate switch. The
        description, the date and the edit mode have no input and keep
        their values. */
    method Edit(title: string, accountId: Option<int>, categoryId: Option<int>, notes: string, isCorporate: bool)
      modifies this
      ensures transaction == old(transaction)
      ensures fields == old(fields).(title := title, accountId := accountId, categoryId := categoryId,
                                     notes := notes, isCorporate := isCorporate)
    {
      fields := fields.(title := title, accountId := accountId, categoryId := categoryId,
                        notes := notes, isCorporate := isCorporate);
    }

    /** Typing in the amount box. */
    method TypeAmount(text: string)
      modifies this
      ensures transaction == old(transaction)
      ensures fields == old(fields).(amount := text)
    {
      fields := fields.(amount := text);
    }

    /** `handleSave`. `failure` is what the backend call throws, if it
        throws. It changes no field: it makes at most one call, alerts on a
        refusal or a failure, and reports `onSave` only after a call that
        succeeded. */
    method HandleSave(parse: string -> Option<real>, failure: Option<Error>)
      returns (call: Option<SaveCall>, alert: Option<string>, saved: bool)
      ensures call.None? <==> !Complete(fields) || parse(Decimal(fields.amount)).None?
      ensures call.Some? ==> (call.value.Update? <==> fields.isEditing && transaction.Some?)
      ensures call.Some? && call.value.Update? ==> call.value.id == transaction.value.id
      ensures call.Some? ==> call.value.data.amount == SignedAmount(fields.kind, parse(Decimal(fields.amount)).value)
      ensures call.Some? ==> call == Some(SaveRequest(fields, transaction, parse).value)
      ensures saved <==> call.Some? && failure.None?
      ensures !Complete(fields) ==> alert == Some(MissingFields)
      ensures Complete(fields) && call.None? ==> alert == Some(NotANumber)
      ensures call.Some? ==> alert == if failure.Some? then Some(failure.value.message) else None
    {
      var request := SaveRequest(fields, transaction, parse);
      if request.Err? {
        return None, Some(request.error.message), false;
      }
      call := Some(request.value);
      if failure.Some? {
        alert, saved := Some(failure.value.message), false;
      } else {
        alert, saved := None, true;
      }
    }

  }
}
