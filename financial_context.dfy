/** The financial cache of context/FinancialContext.tsx: the five lists,
    `loading` and `error` held by the provider, the fetch that fills them,
    the reaction to a profile change, and the add, update and delete
    operations on the four tables the screens edit. Each backend answer is
    an input of the operation that awaits it; the query filters are the
    backend's and are not modelled. */
module FinancialContext {
  import opened Wrappers
  import opened Schema

  /** The five lists, as one snapshot. */
  datatype Cache = Cache(
    accounts: seq<Account>,
    transactions: seq<Transaction>,
    categories: seq<Category>,
    budgets: seq<Budget>,
    targets: seq<FinancialTarget>)

  /** The `{ data, error }` answer of one select: an error, or data that may
      be null. */
  type Answer<T> = Result<Option<seq<T>>>

  /** The answers of the five selects of one fetch. */
  datatype Answers = Answers(
    accounts: Answer<Account>,
    transactions: Answer<Transaction>,
    categories: Answer<Category>,
    budgets: Answer<Budget>,
    targets: Answer<FinancialTarget>)

  /** The tables the screens write to. */
  datatype Table = Accounts | Transactions | Categories | Targets

  /** An insert as a screen hands it over: its columns and, possibly, an
      owner of its own. */
  datatype Draft<T> = Draft(profileId: Option<int>, columns: T)

  /** An insert as it is sent. */
  datatype Insert<T> = Insert(table: Table, profileId: int, columns: T)

  const NotAuthenticated: string := "User not authenticated"

  const NoLists: Cache := Cache([], [], [], [], [])

  /** `data || []`. */
  function OrEmpty<T>(data: Option<seq<T>>): (r: seq<T>)
    ensures data.Some? ==> r == data.value
    ensures data.None? ==> |r| == 0
  {
    if data.Some? then data.value else []
  }

  /** The error `fetchData` records: that of the first answer, in the
      order accounts, transactions, categories, budgets, targets, that
      carries one; none when no answer does. */
  function FirstError(a: Answers): (r: Option<Error>)
    ensures r.None? <==>
      a.accounts.Ok? && a.transactions.Ok? && a.categories.Ok? && a.budgets.Ok? && a.targets.Ok?
    ensures a.accounts.Err? ==> r == Some(a.accounts.error)
    ensures a.accounts.Ok? && a.transactions.Err? ==> r == Some(a.transactions.error)
    ensures a.accounts.Ok? && a.transactions.Ok? && a.categories.Err? ==> r == Some(a.categories.error)
    ensures a.accounts.Ok? && a.transactions.Ok? && a.categories.Ok? && a.budgets.Err? ==>
      r == Some(a.budgets.error)
    ensures a.accounts.Ok? && a.transactions.Ok? && a.categories.Ok? && a.budgets.Ok? && a.targets.Err? ==>
      r == Some(a.targets.error)
  {
    if a.accounts.Err? then Some(a.accounts.error)
    else if a.transactions.Err? then Some(a.transactions.error)
    else if a.categories.Err? then Some(a.categories.error)
    else if a.budgets.Err? then Some(a.budgets.error)
    else if a.targets.Err? then Some(a.targets.error)
    else None
  }

  /** The lists after a fetch that reached the backend: all five replaced
      by the answers' data when no answer carries an error, all five kept
      otherwise. */
  function Fetched(before: Cache, a: Answers): (r: Cache)
    ensures FirstError(a).Some? ==> r == before
    ensures FirstError(a).None? ==>
      && r.accounts == OrEmpty(a.accounts.value)
      && r.transactions == OrEmpty(a.transactions.value)
      && r.categories == OrEmpty(a.categories.value)
      && r.budgets == OrEmpty(a.budgets.value)
      && r.targets == OrEmpty(a.targets.value)
  {
    if FirstError(a).Some? then before
    else Cache(OrEmpty(a.accounts.value), OrEmpty(a.transactions.value), OrEmpty(a.categories.value),
               OrEmpty(a.budgets.value), OrEmpty(a.targets.value))
  }

  /** A fetch never mixes old and new lists: it keeps all five or replaces
      all five. */
  lemma FetchIsAllOrNothing(before: Cache, a: Answers)
    ensures Fetched(before, a) == before || FirstError(a).None?
    ensures FirstError(a).None? ==> Fetched(before, a) == Fetched(NoLists, a)
  {
  }

  /** Fetching the same answers twice gives what fetching once gives. */
  lemma FetchIdempotent(before: Cache, a: Answers)
    ensures Fetched(Fetched(before, a), a) == Fetched(before, a)
  {
  }

  /** `{ ...draft, profile_id: profile.id }`: the viewer's id replaces any
      the draft carries. */
  function Stamp<T>(table: Table, draft: Draft<T>, viewerId: int): (r: Insert<T>)
    ensures r.profileId == viewerId && r.columns == draft.columns && r.table == table
  {
    Insert(table, viewerId, draft.columns)
  }

  /** The owner a draft claims plays no part in what is sent. */
  lemma StampIgnoresClaimedOwner<T>(table: Table, columns: T, claimed1: Option<int>, claimed2: Option<int>, viewerId: int)
    ensures Stamp(table, Draft(claimed1, columns), viewerId) == Stamp(table, Draft(claimed2, columns), viewerId)
  {
  }

  /** `!profile?.id`: no profile, or the falsy id 0. */
  predicate SignedOut(profileId: Option<int>) {
    profileId.None? || profileId.value == 0
  }

  /** The provider's state. */
  class FinancialStore {
    var profileId: Option<int>
    var accounts: seq<Account>
    var transactions: seq<Transaction>
    var categories: seq<Category>
    var budgets: seq<Budget>
    var targets: seq<FinancialTarget>
    var loading: bool
    var error: Option<Error>

    /** The five lists as one snapshot. */
    function Contents(): Cache
      reads this
    {
      Cache(accounts, transactions, categories, budgets, targets)
    }

    /** The provider starts with empty lists, `loading` set and no error. */
    constructor (viewerId: Option<int>)
      ensures profileId == viewerId && Contents() == NoLists && loading && error.None?
    {
      profileId := viewerId;
      accounts, transactions, categories, budgets, targets := [], [], [], [], [];
      loading := true;
      error := None;
    }

    /** The part of `fetchData` before the selects are awaited. Signed out,
        it only clears `loading` and reports that nothing is fetched;
        otherwise it sets `loading` and clears the error. */
    method BeginFetch() returns (started: bool)
      modifies this
      ensures started <==> !SignedOut(profileId)
      ensures started ==> loading && error.None?
      ensures !started ==> !loading && error == old(error)
      ensures Contents() == old(Contents()) && profileId == old(profileId)
    {
      if SignedOut(profileId) {
        loading := false;
        return false;
      }
      loading := true;
      error := None;
      started := true;
    }

    /** The part of `fetchData` after the selects answered: the first error
        is recorded and the lists kept, or the lists are replaced; either
        way `loading` is cleared. */
    method FinishFetch(a: Answers)
      modifies this
      ensures Contents() == Fetched(old(Contents()), a)
      ensures error == if FirstError(a).Some? then FirstError(a) else old(error)
      ensures !loading && profileId == old(profileId)
    {
      var failure := FirstError(a);
      if failure.Some? {
        error := failure;
      } else {
        accounts := OrEmpty(a.accounts.value);
        transactions := OrEmpty(a.transactions.value);
        categories := OrEmpty(a.categories.value);
        budgets := OrEmpty(a.budgets.value);
        targets := OrEmpty(a.targets.value);
      }
      loading := false;
    }

    /** `fetchData` (and `refetch`) given the answers the selects would
        give. Signed out, nothing is asked and the lists and error stay.
        Otherwise the error is the first answer's error, if any, and the
        lists are the fetched ones. `loading` is clear afterwards. */
    method FetchData(a: Answers) returns (fetched: bool)
      modifies this
      ensures fetched <==> !SignedOut(profileId)
      ensures !loading && profileId == old(profileId)
      ensures fetched ==> Contents() == Fetched(old(Contents()), a) && error == FirstError(a)
      ensures !fetched ==> Contents() == old(Contents()) && error == old(error)
    {
      fetched := BeginFetch();
      if fetched {
        FinishFetch(a);
      }
    }

    /** The effect on `profile`: signed in, the data is fetched; signed out,
        the five lists are emptied, and `loading` and `error` stay as they
        were. */
    method ProfileChanged(viewerId: Option<int>, a: Answers) returns (fetched: bool)
      modifies this
      ensures profileId == viewerId
      ensures fetched <==> !SignedOut(viewerId)
      ensures fetched ==> Contents() == Fetched(old(Contents()), a) && error == FirstError(a) && !loading
      ensures !fetched ==> Contents() == NoLists && error == old(error) && loading == old(loading)
    {
      profileId := viewerId;
      if SignedOut(viewerId) {
        accounts, transactions, categories, budgets, targets := [], [], [], [], [];
        return false;
      }
      fetched := FetchData(a);
    }

    /** `addTransaction`, `addAccount`, `addCategory` and
        `addFinancialTarget`. Signed out, it throws before any call.
        Otherwise the draft is inserted under the viewer's id; an insert
        error is thrown without a refetch, and a successful insert refetches
        with the answers `a` and returns the inserted rows. */
    method Add<T, R>(table: Table, draft: Draft<T>, insert: Result<R>, a: Answers)
      returns (sent: Option<Insert<T>>, result: Result<R>)
      modifies this
      ensures SignedOut(profileId) ==> sent.None? && result == Err(Error(NotAuthenticated))
      ensures !SignedOut(profileId) ==> sent == Some(Stamp(table, draft, profileId.value)) && result == insert
      ensures profileId == old(profileId)
      ensures sent.Some? && insert.Ok? ==>
        Contents() == Fetched(old(Contents()), a) && error == FirstError(a) && !loading
      ensures sent.None? || insert.Err? ==>
        Contents() == old(Contents()) && error == old(error) && loading == old(loading)
    {
      if SignedOut(profileId) {
        return None, Err(Error(NotAuthenticated));
      }
      sent := Some(Stamp(table, draft, profileId.value));
      result := insert;
      if insert.Ok? {
        var _ := FetchData(a);
      }
    }

    /** `updateX` and `deleteX`: the call needs no profile. An error is
        thrown without a refetch; success refetches (which does nothing
        while signed out) and returns the answer. */
    method Change<R>(answer: Result<R>, a: Answers) returns (result: Result<R>)
      modifies this
      ensures result == answer
      ensures profileId == old(profileId)
      ensures answer.Ok? && !SignedOut(profileId) ==>
        Contents() == Fetched(old(Contents()), a) && error == FirstError(a) && !loading
      ensures answer.Ok? && SignedOut(profileId) ==>
        Contents() == old(Contents()) && error == old(error) && !loading
      ensures answer.Err? ==>
        Contents() == old(Contents()) && error == old(error) && loading == old(loading)
    {
      result := answer;
      if answer.Ok? {
        var _ := FetchData(a);
      }
    }
  }
}
