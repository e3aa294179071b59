/** The account editor (components/financials/AccountManager.tsx): the
    viewer's accounts, the form that an account selection loads and a clear
    resets, the checks and the two calls of its save, its delete, and its
    own type labels. Number parsing and printing are parameters (`parse`,
    `render`). */
module AccountManager {
  import opened Wrappers
  import opened Text
  import opened Lists
  import opened Schema
  import CustomPicker
  import AccountCard

  /** The form's fields. The balance is the text typed in its box. */
  datatype AccountFields = AccountFields(
    name: string,
    accountType: string,
    balance: string,
    currency: string,
    isPublic: bool,
    isCorporate: bool)

  /** The columns a save sends. */
  datatype AccountData = AccountData(
    name: string,
    accountType: string,
    initialBalance: real,
    currency: string,
    isPublic: bool,
    isCorporate: bool)

  /** The backend call a save makes. */
  datatype AccountCall = UpdateAccount(id: int, data: AccountData) | AddAccount(data: AccountData)

  const Required: string := "Nome e Saldo Inicial são obrigatórios"
  const NotANumber: string := "O saldo inicial deve ser um número válido"
  const NotAuthenticated: string := "Usuário não autenticado para criar conta"

  /** The choices of the type picker. */
  const AccountTypes: seq<CustomPicker.Item<string>> := [
    CustomPicker.Item("Conta Corrente", "checking"),
    CustomPicker.Item("Poupança", "savings"),
    CustomPicker.Item("Cartão de Crédito", "credit_card"),
    CustomPicker.Item("Investimento", "investment"),
    CustomPicker.Item("Dinheiro", "cash")
  ]

  /** `userAccounts`: exactly the accounts whose owner is the viewer, in
      their order; none without a viewer. */
  function OwnedAccounts(accounts: seq<Account>, viewer: Option<Profile>): (r: seq<Account>)
    ensures viewer.None? ==> |r| == 0
    ensures forall k :: 0 <= k < |r| ==> r[k] in accounts && viewer.Some? && r[k].profileId == viewer.value.id
    ensures viewer.Some? ==> forall i :: 0 <= i < |accounts| && accounts[i].profileId == viewer.value.id ==> accounts[i] in r
    ensures IsSubsequence(r, accounts)
    ensures viewer.Some? ==> |r| == Count(accounts, (a: Account) => a.profileId == viewer.value.id)
  {
    if viewer.None? then [] else Filter(accounts, (a: Account) => a.profileId == viewer.value.id)
  }

  /** The form of a new account. */
  const Blank: AccountFields := AccountFields("", "checking", "", "BRL", false, false)

  /** The form loaded from an account: its own values, the balance printed
      by `render` (`String`), an empty currency read as BRL and a missing
      switch as off. */
  function EditFields(a: Account, render: real -> string): (r: AccountFields)
    ensures r.name == a.name && r.accountType == a.accountType && r.balance == render(a.initialBalance)
    ensures |a.currency| > 0 ==> r.currency == a.currency
    ensures |a.currency| == 0 ==> r.currency == "BRL"
    ensures r.isPublic <==> a.isPublic == Some(true)
    ensures r.isCorporate <==> a.isCorporate == Some(true)
  {
    AccountFields(a.name, a.accountType, render(a.initialBalance),
                  if |a.currency| > 0 then a.currency else "BRL",
                  a.isPublic.GetOr(false), a.isCorporate.GetOr(false))
  }

  /** What the form holds after the effect that follows every change of the
      account being edited. */
  function FormFor(editing: Option<Account>, render: real -> string): (r: AccountFields)
    ensures editing.None? ==> r == Blank
    ensures editing.Some? ==> r == EditFields(editing.value, render)
  {
    if editing.Some? then EditFields(editing.value, render) else Blank
  }

  /** A loaded form always has a currency: never the empty text. */
  lemma FormHasCurrency(editing: Option<Account>, render: real -> string)
    ensures |FormFor(editing, render).currency| > 0
  {
  }

  /** `handleSave` up to the backend call. An empty name or balance text, a
      balance that does not parse (after its first comma becomes a point),
      and a create without a viewer id (the id 0 is falsy too) are refused
      with their alerts. Otherwise the account being edited is updated, or
      a new one is added. */
  function SaveRequest(f: AccountFields, editing: Option<Account>, viewerId: Option<int>,
                       parse: string -> Option<real>): (r: Result<AccountCall>)
    ensures |f.name| == 0 || |f.balance| == 0 ==> r == Err(Error(Required))
    ensures |f.name| > 0 && |f.balance| > 0 && parse(ReplaceFirst(f.balance, ',', '.')).None? ==>
      r == Err(Error(NotANumber))
    ensures r.Ok? <==>
      |f.name| > 0 && |f.balance| > 0 && parse(ReplaceFirst(f.balance, ',', '.')).Some? &&
      (editing.Some? || (viewerId.Some? && viewerId.value != 0))
    ensures r.Ok? ==> (r.value.UpdateAccount? <==> editing.Some?)
    ensures r.Ok? && r.value.UpdateAccount? ==> r.value.id == editing.value.id
    ensures r.Ok? ==> r.value.data == AccountData(f.name, f.accountType,
      parse(ReplaceFirst(f.balance, ',', '.')).value, f.currency, f.isPublic, f.isCorporate)
    ensures (r.Err? && editing.None? && |f.name| > 0 && |f.balance| > 0 &&
             parse(ReplaceFirst(f.balance, ',', '.')).Some?) ==> r == Err(Error(NotAuthenticated))
  {
    if |f.name| == 0 || |f.balance| == 0 then Err(Error(Required))
    else
      var number := parse(ReplaceFirst(f.balance, ',', '.'));
      if number.None? then Err(Error(NotANumber))
      else
        var data := AccountData(f.name, f.accountType, number.value, f.currency, f.isPublic, f.isCorporate);
        if editing.Some? then Ok(UpdateAccount(editing.value.id, data))
        else if viewerId.None? || viewerId.value == 0 then Err(Error(NotAuthenticated))
        else Ok(AddAccount(data))
  }

  /** Editing never needs a viewer: an update is sent whatever the viewer. */
  lemma UpdateIgnoresViewer(f: AccountFields, a: Account, v1: Option<int>, v2: Option<int>,
                            parse: string -> Option<real>)
    ensures SaveRequest(f, Some(a), v1, parse) == SaveRequest(f, Some(a), v2, parse)
  {
  }

  /** Saving an account just loaded sends its own columns back, provided
      `parse` reads back what `render` printed, its name is not empty and
      its balance prints as something. */
  lemma LoadSaveRoundTrip(a: Account, viewerId: Option<int>, render: real -> string, parse: string -> Option<real>)
    requires |a.name| > 0 && |render(a.initialBalance)| > 0
    requires parse(ReplaceFirst(render(a.initialBalance), ',', '.')) == Some(a.initialBalance)
    ensures SaveRequest(FormFor(Some(a), render), Some(a), viewerId, parse) ==
      Ok(UpdateAccount(a.id, AccountData(a.name, a.accountType, a.initialBalance,
                                         if |a.currency| > 0 then a.currency else "BRL",
                                         a.isPublic == Some(true), a.isCorporate == Some(true))))
  {
  }

  /** `getAccountTypeName` of this screen: the label of exactly one of the
      five enumeration values, compared with their case; any other type is
      shown unchanged. */
  function TypeName(accountType: string): (r: string)
    ensures accountType == "checking" ==> r == "Conta Corrente"
    ensures accountType == "savings" ==> r == "Poupança"
    ensures accountType == "credit_card" ==> r == "Cartão de Crédito"
    ensures accountType == "cash" ==> r == "Dinheiro"
    ensures accountType == "investment" ==> r == "Investimento"
    ensures (accountType != "checking" && accountType != "savings" && accountType != "credit_card" &&
             accountType != "cash" && accountType != "investment") ==> r == accountType
  {
    if accountType == "checking" then "Conta Corrente"
    else if accountType == "savings" then "Poupança"
    else if accountType == "credit_card" then "Cartão de Crédito"
    else if accountType == "cash" then "Dinheiro"
    else if accountType == "investment" then "Investimento"
    else accountType
  }

  /** The label of every choice of the type picker is the name this screen
      gives its value. */
  lemma PickerLabelsAgree()
    ensures forall i :: 0 <= i < |AccountTypes| ==> TypeName(AccountTypes[i].value) == AccountTypes[i].caption
  {
  }

  /** The two label maps agree on the five enumeration values. */
  lemma LabelMapsAgree()
    ensures forall i :: 0 <= i < |AccountTypes| ==>
      AccountCard.AccountTypeName(AccountTypes[i].value) == TypeName(AccountTypes[i].value)
  {
    forall i | 0 <= i < |AccountTypes|
      ensures AccountCard.AccountTypeName(AccountTypes[i].value) == TypeName(AccountTypes[i].value)
    {
      LabelAgrees(AccountTypes[i].value);
    }
  }

  /** A lower-case type gets the same label on the tile as here. */
  lemma LabelAgrees(v: string)
    requires v == "checking" || v == "savings" || v == "credit_card" || v == "investment" || v == "cash"
    ensures AccountCard.AccountTypeName(v) == TypeName(v)
  {
    if v == "checking" {
      assert ToLower(v) == v;
    } else if v == "savings" {
      assert ToLower(v) == v;
    } else if v == "credit_card" {
      assert ToLower(v) == v;
    } else if v == "investment" {
      assert ToLower(v) == v;
    } else {
      assert ToLower(v) == v;
    }
  }

  /** But the tile also reads other spellings: it labels `CHECKING` and
      `checking_account`, which this screen shows unchanged. */
  lemma LabelMapsDiffer()
    ensures AccountCard.AccountTypeName("CHECKING") == "Conta Corrente" && TypeName("CHECKING") == "CHECKING"
    ensures AccountCard.AccountTypeName("checking_account") == "Conta Corrente" &&
            TypeName("checking_account") == "checking_account"
  {
    assert ToLower("CHECKING") == "checking";
    assert ToLower("checking_account") == "checking_account";
  }

  /** The editor's state: the account being edited (`isEditing`) and the
      form. The effect on `isEditing` is folded into the operations that
      change it: each one also sets the form. */
  class Editor {
    var editing: Option<Account>
    var form: AccountFields

    constructor ()
      ensures editing.None? && form == Blank
    {
      editing := None;
      form := Blank;
    }

    /** `handleSelectAccount`: edit the account, its values in the form.
        Selecting the account already being edited sets the same state
        again, so the effect does not run and the form keeps what was typed. */
    method SelectAccount(a: Account, render: real -> string)
      modifies this
      ensures editing == Some(a)
      ensures old(editing) == Some(a) ==> form == old(form)
      ensures old(editing) != Some(a) ==> form == FormFor(Some(a), render)
    {
      if editing != Some(a) {
        editing := Some(a);
        form := EditFields(a, render);
      }
    }

    /** `clearForm`: back to creating, with the form reset. */
    method ClearForm()
      modifies this
      ensures editing.None? && form == Blank
    {
      editing := None;
      form := Blank;
    }

    /** Typing or switching in the form. */
    method Edit(f: AccountFields)
      modifies this
      ensures editing == old(editing) && form == f
    {
      form := f;
    }

    /** `handleSave`. `answer` is how the backend call ends: the rows an
        insert returns, or the error it throws. A refused save or a failed
        call changes nothing and alerts. A successful update clears the
        form; a successful insert that returns rows edits the first of
        them, one that returns none leaves the form as it is. */
    method HandleSave(viewerId: Option<int>, parse: string -> Option<real>, render: real -> string,
                      answer: Result<seq<Account>>)
      returns (call: Option<AccountCall>, alert: Option<string>)
      modifies this
      ensures var request := SaveRequest(old(form), old(editing), viewerId, parse);
        && (call.Some? <==> request.Ok?)
        && (call.Some? ==> call.value == request.value)
        && (request.Err? ==> alert == Some(request.error.message))
      ensures call.None? || answer.Err? ==> editing == old(editing) && form == old(form)
      ensures call.Some? && answer.Err? ==> alert == Some(answer.error.message)
      ensures call.Some? && answer.Ok? ==> alert.None?
      ensures call.Some? && call.value.UpdateAccount? && answer.Ok? ==> editing.None? && form == Blank
      ensures call.Some? && call.value.AddAccount? && answer.Ok? && |answer.value| > 0 ==>
        editing == Some(answer.value[0]) && form == FormFor(Some(answer.value[0]), render)
      ensures call.Some? && call.value.AddAccount? && answer.Ok? && |answer.value| == 0 ==>
        editing == old(editing) && form == old(form)
    {
      var request := SaveRequest(form, editing, viewerId, parse);
      if request.Err? {
        return None, Some(request.error.message);
      }
      call := Some(request.value);
      if answer.Err? {
        return call, Some(answer.error.message);
      }
      alert := None;
      if request.value.AddAccount? && |answer.value| > 0 {
        SelectAccount(answer.value[0], render);
      }
      if request.value.UpdateAccount? {
        ClearForm();
      }
    }

    /** The confirmed delete. Nothing happens without an account being
        edited or when the viewer cancels; otherwise its id is deleted and,
        if that succeeds, the form is cleared. */
    method HandleDelete(confirmed: bool, failure: Option<Error>)
      returns (deleted: Option<int>, alert: Option<string>)
      modifies this
      ensures deleted.Some? <==> old(editing).Some? && confirmed
      ensures deleted.Some? ==> deleted.value == old(editing).value.id
      ensures deleted.Some? && failure.None? ==> editing.None? && form == Blank && alert.None?
      ensures deleted.None? || failure.Some? ==> editing == old(editing) && form == old(form)
      ensures deleted.Some? && failure.Some? ==> alert == Some(failure.value.message)
      ensures deleted.None? ==> alert.None?
    {
      if editing.None? || !confirmed {
        return None, None;
      }
      deleted := Some(editing.value.id);
      if failure.Some? {
        alert := Some(failure.value.message);
      } else {
        alert := None;
        ClearForm();
      }
    }
  }
}
