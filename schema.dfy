/** The rows the application reads from its backend, reduced to the
    columns the modelled code looks at, and the enumerations of the
    database schema (lib/database.types.ts). Identifiers are the backend's
    integer keys; amounts are reals; a nullable column is an `Option`. */
module Schema {
  import opened Wrappers

  /** `transaction_type`. */
  datatype TxType = Income | Expense

  /** `feed_post_type`. */
  datatype PostType = Manual | Achievement | MetricSnapshot | TransactionShare

  /** `post_privacy_level`. */
  datatype PrivacyLevel = Public | FollowersOnly | Private

  /** The viewer's profile, as the contexts hold it: the `profiles` columns
      the modelled code reads. */
  datatype Profile = Profile(id: int, name: string, avatarUrl: Option<string>)

  /** An account row. Its type is kept as the text the backend returns:
      the card also recognises names outside the enumeration. The two
      switches are optional columns added after the generated types. */
  datatype Account = Account(
    id: int,
    profileId: int,
    name: string,
    accountType: string,
    initialBalance: real,
    currency: string,
    isPublic: Option<bool>,
    isCorporate: Option<bool>)

  /** A transaction row; `title` and `is_corporate` are optional columns. */
  datatype Transaction = Transaction(
    id: int,
    profileId: int,
    accountId: int,
    categoryId: Option<int>,
    amount: real,
    title: Option<string>,
    description: string,
    notes: Option<string>,
    transactionDate: string,
    isCorporate: Option<bool>)

  /** A transaction category row. */
  datatype Category = Category(
    id: int,
    profileId: int,
    name: string,
    kind: TxType,
    isPublic: Option<bool>)

  /** A budget row. */
  datatype Budget = Budget(id: int, profileId: int, categoryId: int, amount: real, month: int, year: int)

  /** A `user_financial_targets` row. */
  datatype FinancialTarget = FinancialTarget(id: int, profileId: int, metricName: string, targetValue: real)
}
