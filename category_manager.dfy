/** The category editor (components/financials/CategoryManager.tsx): the
    viewer's categories, the form that a category selection loads and a
    clear resets, the check and the two calls of its save, and its delete.
    The editor answers with toasts. */
module CategoryManager {
  import opened Wrappers
  import opened Lists
  import opened Schema

  /** The form's fields. */
  datatype CategoryFields = CategoryFields(name: string, kind: TxType, isPublic: bool)

  /** The backend call a save makes; both send the form's fields. */
  datatype CategoryCall = UpdateCategory(id: int, data: CategoryFields) | AddCategory(data: CategoryFields)

  /** A toast: its text, and whether it reports an error. */
  datatype Toast = Toast(message: string, isError: bool)

  const NameRequired: string := "Atenção - O nome da categoria é obrigatório"
  const NotAuthenticated: string := "Usuário não autenticado para criar categoria"
  const Updated: string := "Categoria atualizada com sucesso!"
  const Created: string := "Categoria criada com sucesso!"
  const Deleted: string := "Categoria excluída com sucesso!"

  /** `userCategories`: exactly the categories whose owner is the viewer, in
      their order; none without a viewer. */
  function OwnedCategories(categories: seq<Category>, viewer: Option<Profile>): (r: seq<Category>)
    ensures viewer.None? ==> |r| == 0
    ensures forall k :: 0 <= k < |r| ==> r[k] in categories && viewer.Some? && r[k].profileId == viewer.value.id
    ensures viewer.Some? ==> forall i :: 0 <= i < |categories| && categories[i].profileId == viewer.value.id ==> categories[i] in r
    ensures IsSubsequence(r, categories)
    ensures viewer.Some? ==> |r| == Count(categories, (c: Category) => c.profileId == viewer.value.id)
  {
    if viewer.None? then [] else Filter(categories, (c: Category) => c.profileId == viewer.value.id)
  }

  /** The form of a new category. */
  const Blank: CategoryFields := CategoryFields("", Expense, false)

  /** What the form holds after the effect that follows every change of the
      category being edited: the category's name and type with a missing
      public switch read as off, or the blank form. */
  function FormFor(editing: Option<Category>): (r: CategoryFields)
    ensures editing.None? ==> r == Blank
    ensures editing.Some? ==> r.name == editing.value.name && r.kind == editing.value.kind
    ensures editing.Some? ==> (r.isPublic <==> editing.value.isPublic == Some(true))
  {
    if editing.Some? then
      CategoryFields(editing.value.name, editing.value.kind, editing.value.isPublic.GetOr(false))
    else Blank
  }

  /** `handleSave` up to the backend call. An empty name, and a create
      without a viewer id (the id 0 is falsy too), are refused with an
      error toast. Otherwise the category being edited is updated, or a new
      one is added. */
  function SaveRequest(f: CategoryFields, editing: Option<Category>, viewerId: Option<int>): (r: Result<CategoryCall>)
    ensures |f.name| == 0 ==> r == Err(Error(NameRequired))
    ensures r.Ok? <==> |f.name| > 0 && (editing.Some? || (viewerId.Some? && viewerId.value != 0))
    ensures r.Ok? ==> (r.value.UpdateCategory? <==> editing.Some?)
    ensures r.Ok? && r.value.UpdateCategory? ==> r.value.id == editing.value.id
    ensures r.Ok? ==> r.value.data == f
    ensures (|f.name| > 0 && r.Err?) ==> r == Err(Error(NotAuthenticated))
  {
    if |f.name| == 0 then Err(Error(NameRequired))
    else if editing.Some? then Ok(UpdateCategory(editing.value.id, f))
    else if viewerId.None? || viewerId.value == 0 then Err(Error(NotAuthenticated))
    else Ok(AddCategory(f))
  }

  /** Saving a category just loaded, with a name, sends its own name and type
      back as an update. */
  lemma LoadSaveRoundTrip(c: Category, viewerId: Option<int>)
    requires |c.name| > 0
    ensures SaveRequest(FormFor(Some(c)), Some(c), viewerId) ==
      Ok(UpdateCategory(c.id, CategoryFields(c.name, c.kind, c.isPublic == Some(true))))
  {
  }

  /** The blank form can never be saved. */
  lemma BlankIsRefused(editing: Option<Category>, viewerId: Option<int>)
    ensures SaveRequest(Blank, editing, viewerId) == Err(Error(NameRequired))
  {
  }

  /** The editor's state: the category being edited (`isEditing`) and the
      form. The effect on `isEditing` is folded into the operations that
      change it: each one also sets the form. */
  class Editor {
    var editing: Option<Category>
    var form: CategoryFields

    constructor ()
      ensures editing.None? && form == Blank
    {
      editing := None;
      form := Blank;
    }

    /** `handleSelectCategory`: edit the category, its values in the form.
        Selecting the category already being edited sets the same state
        again, so the effect does not run and the form keeps what was typed. */
    method SelectCategory(c: Category)
      modifies this
      ensures editing == Some(c)
      ensures old(editing) == Some(c) ==> form == old(form)
      ensures old(editing) != Some(c) ==> form == FormFor(Some(c))
    {
      if editing != Some(c) {
        editing := Some(c);
        form := FormFor(Some(c));
      }
    }

    /** `clearForm`: back to creating, with the form reset. */
    method ClearForm()
      modifies this
      ensures editing.None? && form == Blank
    {
      editing := None;
      form := Blank;
    }

    /** Typing or switching in the form. */
    method Edit(f: CategoryFields)
      modifies this
      ensures editing == old(editing) && form == f
    {
      form := f;
    }

    /** `handleSave`. `answer` is how the backend call ends: the rows an
        insert returns, or the error it throws. A refused save or a failed
        call changes nothing and toasts the error. A successful update
        clears the form; a successful insert edits the first row it
        returns, if any; both toast their success. */
    method HandleSave(viewerId: Option<int>, answer: Result<seq<Category>>)
      returns (call: Option<CategoryCall>, toast: Toast)
      modifies this
      ensures var request := SaveRequest(old(form), old(editing), viewerId);
        && (call.Some? <==> request.Ok?)
        && (call.Some? ==> call.value == request.value)
        && (request.Err? ==> toast == Toast(request.error.message, true))
      ensures call.None? || answer.Err? ==> editing == old(editing) && form == old(form)
      ensures call.Some? && answer.Err? ==> toast == Toast(answer.error.message, true)
      ensures call.Some? && call.value.UpdateCategory? && answer.Ok? ==>
        editing.None? && form == Blank && toast == Toast(Updated, false)
      ensures call.Some? && call.value.AddCategory? && answer.Ok? ==> toast == Toast(Created, false)
      ensures call.Some? && call.value.AddCategory? && answer.Ok? && |answer.value| > 0 ==>
        editing == Some(answer.value[0]) && form == FormFor(Some(answer.value[0]))
      ensures call.Some? && call.value.AddCategory? && answer.Ok? && |answer.value| == 0 ==>
        editing == old(editing) && form == old(form)
    {
      var request := SaveRequest(form, editing, viewerId);
      if request.Err? {
        return None, Toast(request.error.message, true);
      }
      call := Some(request.value);
      if answer.Err? {
        return call, Toast(answer.error.message, true);
      }
      if request.value.UpdateCategory? {
        toast := Toast(Updated, false);
        ClearForm();
      } else {
        if |answer.value| > 0 {
          SelectCategory(answer.value[0]);
        }
        toast := Toast(Created, false);
      }
    }

    /** The confirmed delete. Nothing happens without a category being
        edited or when the viewer cancels; otherwise its id is deleted and,
        if that succeeds, the form is cleared. */
    method HandleDelete(confirmed: bool, failure: Option<Error>)
      returns (deleted: Option<int>, toast: Option<Toast>)
      modifies this
      ensures deleted.Some? <==> old(editing).Some? && confirmed
      ensures deleted.Some? ==> deleted.value == old(editing).value.id
      ensures deleted.Some? && failure.None? ==>
        editing.None? && form == Blank && toast == Some(Toast(Deleted, false))
      ensures deleted.None? || failure.Some? ==> editing == old(editing) && form == old(form)
      ensures deleted.Some? && failure.Some? ==> toast == Some(Toast(failure.value.message, true))
      ensures deleted.None? ==> toast.None?
    {
      if editing.None? || !confirmed {
        return None, None;
      }
      deleted := Some(editing.value.id);
      if failure.Some? {
        toast := Some(Toast(failure.value.message, true));
      } else {
        toast := Some(Toast(Deleted, false));
        ClearForm();
      }
    }
  }
}
