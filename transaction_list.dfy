/** The transaction list (components/financials/TransactionList.tsx): how a
    row shows its amount, title and the names of its account and category,
    the payload of the share button, and the empty state. Money formatting
    is a parameter `format`; dates are not modelled. */
module TransactionList {
  import opened Wrappers
  import opened Text
  import opened Lists
  import opened Schema

  /** What one row shows besides the date. */
  datatype Row = Row(
    title: string,
    notes: Option<string>,
    accountName: Option<string>,
    categoryName: Option<string>,
    income: bool,
    magnitude: real)

  /** The list: the empty state, or one row per transaction. */
  datatype Listing = EmptyState | Rows(rows: seq<Row>)

  /** The parameters the share button passes to the post editor. */
  datatype Share = Share(title: string, description: string, postType: PostType)

  const SharePrefix: string := "Shared a transaction: "
  const AmountPrefix: string := "Amount: "

  /** `Number(item.amount) > 0`: zero counts as an expense. */
  predicate IsIncome(t: Transaction) {
    t.amount > 0.0
  }

  function Abs(x: real): (r: real)
    ensures r >= 0.0 && (r == x || r == -x)
  {
    if x < 0.0 then -x else x
  }

  /** The sign shown before the amount. */
  function SignOf(t: Transaction): (r: char)
    ensures r == '+' <==> t.amount > 0.0
    ensures r == '+' || r == '-'
  {
    if IsIncome(t) then '+' else '-'
  }

  /** The row reads as its sign and magnitude; together they give the
      amount back, except that zero reads as "- 0". */
  lemma DisplayGivesAmountBack(t: Transaction)
    ensures SignOf(t) == '+' ==> t.amount == Abs(t.amount)
    ensures SignOf(t) == '-' ==> t.amount == -Abs(t.amount)
    ensures t.amount == 0.0 ==> SignOf(t) == '-'
  {
  }

  /** `item.title || item.description`. */
  function RowTitle(t: Transaction): (r: string)
    ensures Truthy(t.title) ==> r == t.title.value
    ensures !Truthy(t.title) ==> r == t.description
  {
    Or(t.title, t.description)
  }

  /** The name of the FIRST account whose id is the transaction's account,
      or none when no account has it. */
  function AccountName(accounts: seq<Account>, t: Transaction): (r: Option<string>)
    ensures r.None? <==> forall i :: 0 <= i < |accounts| ==> accounts[i].id != t.accountId
    ensures forall i :: IsFirstMatch(accounts, (a: Account) => a.id == t.accountId, i) ==>
      r == Some(accounts[i].name)
  {
    var holds := (a: Account) => a.id == t.accountId;
    var found := Find(accounts, holds);
    forall i | IsFirstMatch(accounts, holds, i) ensures found == Some(accounts[i]) {
      FindAt(accounts, holds, i);
    }
    if found.Some? then Some(found.value.name) else None
  }

  /** The name of the FIRST category whose id is the transaction's category;
      a transaction without a category matches none. */
  function CategoryName(categories: seq<Category>, t: Transaction): (r: Option<string>)
    ensures t.categoryId.None? ==> r.None?
    ensures r.None? <==> forall i :: 0 <= i < |categories| ==> t.categoryId != Some(categories[i].id)
    ensures forall i :: IsFirstMatch(categories, (c: Category) => t.categoryId == Some(c.id), i) ==>
      r == Some(categories[i].name)
  {
    var holds := (c: Category) => t.categoryId == Some(c.id);
    var found := Find(categories, holds);
    forall i | IsFirstMatch(categories, holds, i) ensures found == Some(categories[i]) {
      FindAt(categories, holds, i);
    }
    if found.Some? then Some(found.value.name) else None
  }

  /** One row of the list. */
  function RenderRow(t: Transaction, accounts: seq<Account>, categories: seq<Category>): (r: Row)
    ensures r.income <==> t.amount > 0.0
    ensures r.magnitude >= 0.0 && (r.magnitude == t.amount || r.magnitude == -t.amount)
    ensures r.title == RowTitle(t)
    ensures r.notes.Some? <==> Truthy(t.notes)
    ensures r.notes.Some? ==> r.notes == t.notes
    ensures r.accountName.Some? <==> Truthy(AccountName(accounts, t))
    ensures r.accountName.Some? ==> r.accountName == AccountName(accounts, t)
    ensures r.categoryName.Some? <==> Truthy(CategoryName(categories, t))
    ensures r.categoryName.Some? ==> r.categoryName == CategoryName(categories, t)
  {
    Row(RowTitle(t), Shown(t.notes), Shown(AccountName(accounts, t)), Shown(CategoryName(categories, t)),
        IsIncome(t), Abs(t.amount))
  }

  /** `TransactionList`: only the empty state for no transactions, otherwise
      one row per transaction in the given order. */
  function Render(transactions: seq<Transaction>, accounts: seq<Account>, categories: seq<Category>): (r: Listing)
    ensures r.EmptyState? <==> |transactions| == 0
    ensures r.Rows? ==> |r.rows| == |transactions|
    ensures r.Rows? ==> forall i :: 0 <= i < |transactions| ==>
      r.rows[i] == RenderRow(transactions[i], accounts, categories)
  {
    if |transactions| == 0 then EmptyState
    else Rows(seq(|transactions|, i requires 0 <= i < |transactions| => RenderRow(transactions[i], accounts, categories)))
  }

  /** `handleShare`: the post editor is opened with a title naming the
      transaction, its formatted magnitude as description, and the
      `transaction_share` type. */
  function SharePayload(t: Transaction, format: real -> string): (r: Share)
    ensures r.postType == TransactionShare
    ensures |r.title| == |SharePrefix| + |RowTitle(t)|
    ensures r.title[..|SharePrefix|] == SharePrefix && r.title[|SharePrefix|..] == RowTitle(t)
    ensures r.description == AmountPrefix + format(Abs(t.amount))
  {
    Share(SharePrefix + RowTitle(t), AmountPrefix + format(Abs(t.amount)), TransactionShare)
  }

  /** An income and the matching expense are shared with the same amount text. */
  lemma ShareIgnoresSign(t: Transaction, format: real -> string)
    ensures SharePayload(t, format).description == SharePayload(t.(amount := -t.amount), format).description
  {
  }
}
