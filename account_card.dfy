/** The account tile (components/financials/AccountCard.tsx): the icon and
    the label of the account type, both looked up without regard to case,
    and the conditions of the balance caption, the dimmed balance and the
    currency tag. Money formatting is not modelled. */
module AccountCard {
  import opened Wrappers
  import opened Text
  import opened Schema

  datatype Icon = Bank | PiggyBank | CreditCard | Investment | Wallet

  /** `getAccountIcon`: the `switch` over the lower-cased type; `cash` and
      every unknown type get the wallet. */
  function AccountIcon(accountType: string): (r: Icon)
    ensures var t := ToLower(accountType);
      && (r == Bank <==> t == "checking" || t == "checking_account")
      && (r == PiggyBank <==> t == "savings" || t == "savings_account")
      && (r == CreditCard <==> t == "credit_card")
      && (r == Investment <==> t == "investment")
  {
    var t := ToLower(accountType);
    if t == "checking" || t == "checking_account" then Bank
    else if t == "savings" || t == "savings_account" then PiggyBank
    else if t == "credit_card" then CreditCard
    else if t == "investment" then Investment
    else Wallet
  }

  /** The `typeMap` of `getAccountTypeName`, keyed by lower-cased type. */
  function TypeLabel(key: string): (r: Option<string>)
    ensures r.Some? ==> |r.value| > 0
  {
    if key == "checking" || key == "checking_account" then Some("Conta Corrente")
    else if key == "savings" || key == "savings_account" then Some("Poupança")
    else if key == "credit_card" then Some("Cartão de Crédito")
    else if key == "cash" then Some("Dinheiro")
    else if key == "investment" then Some("Investimento")
    else None
  }

  /** `getAccountTypeName`: the label of the lower-cased type when the map
      has one; otherwise the type as given with its first `_` turned into a
      space (only the first: `replace` with a string pattern). */
  function AccountTypeName(accountType: string): (r: string)
    ensures TypeLabel(ToLower(accountType)).Some? ==> r == TypeLabel(ToLower(accountType)).value
    ensures TypeLabel(ToLower(accountType)).None? ==>
      |r| == |accountType| &&
      forall i :: 0 <= i < |r| ==>
        r[i] == (if accountType[i] == '_' && forall j :: 0 <= j < i ==> accountType[j] != '_'
                 then ' ' else accountType[i])
  {
    var known := TypeLabel(ToLower(accountType));
    if known.Some? && |known.value| > 0 then known.value else ReplaceFirst(accountType, '_', ' ')
  }

  /** Types that differ only in case get the same icon. */
  lemma IconIgnoresCase(a: string, b: string)
    requires ToLower(a) == ToLower(b)
    ensures AccountIcon(a) == AccountIcon(b)
  {
  }

  /** A known type gets the same label whatever its case; an unknown one is
      shown with its own case. */
  lemma KnownNameIgnoresCase(a: string, b: string)
    requires ToLower(a) == ToLower(b) && TypeLabel(ToLower(a)).Some?
    ensures AccountTypeName(a) == AccountTypeName(b)
  {
  }

  /** `CREDIT_CARD`, upper-cased, is still a credit card. */
  lemma UpperCaseTypeKnown(accountType: string)
    ensures AccountIcon(ToUpper(accountType)) == AccountIcon(accountType)
  {
    ToLowerOfToUpper(accountType);
  }

  /** Every type with its own icon has a label, and the label agrees with
      the icon's group; cash, which shares the wallet with unknown types, is
      the one labelled type without its own icon. */
  lemma IconsAndLabelsAgree(accountType: string)
    ensures var key := ToLower(accountType);
      && (AccountIcon(accountType) == Bank <==> TypeLabel(key) == Some("Conta Corrente"))
      && (AccountIcon(accountType) == PiggyBank <==> TypeLabel(key) == Some("Poupança"))
      && (AccountIcon(accountType) == CreditCard <==> TypeLabel(key) == Some("Cartão de Crédito"))
      && (AccountIcon(accountType) == Investment <==> TypeLabel(key) == Some("Investimento"))
      && (AccountIcon(accountType) == Wallet <==> TypeLabel(key).None? || TypeLabel(key) == Some("Dinheiro"))
  {
  }

  /** What the tile shows besides the name and the formatted balance. */
  datatype Tile = Tile(icon: Icon, typeName: string, caption: string, dimmed: bool, currencyTag: Option<string>)

  /** The tile of an account. The balance caption reads "Disponível" for a
      credit card and "Atual" otherwise; the balance is dimmed exactly when
      it is negative; the currency is tagged when it is set and not BRL. */
  function AccountTile(a: Account): (r: Tile)
    ensures r.icon == AccountIcon(a.accountType) && r.typeName == AccountTypeName(a.accountType)
    ensures r.caption == (if ToLower(a.accountType) == "credit_card" then "Disponível" else "Atual")
    ensures r.dimmed <==> a.initialBalance < 0.0
    ensures r.currencyTag.Some? <==> |a.currency| > 0 && a.currency != "BRL"
    ensures r.currencyTag.Some? ==> r.currencyTag.value == a.currency
  {
    Tile(AccountIcon(a.accountType),
         AccountTypeName(a.accountType),
         if ToLower(a.accountType) == "credit_card" then "Disponível" else "Atual",
         a.initialBalance < 0.0,
         if a.currency != "" && a.currency != "BRL" then Some(a.currency) else None)
  }

  /** The "Disponível" caption goes with the credit-card icon and no other. */
  lemma AvailableCaptionIsCreditCard(a: Account)
    ensures AccountTile(a).caption == "Disponível" <==> AccountIcon(a.accountType) == CreditCard
  {
  }
}
