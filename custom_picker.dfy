/** The searchable drop-down of components/ui/CustomPicker.tsx: the label
    shown for the selected value, the case-insensitive search over the item
    labels, and the two state fields of its modal. */
module CustomPicker {
  import opened Wrappers
  import opened Text
  import opened Lists

  /** `{ label, value }`, the label held as `caption`; values are compared with `===`. */
  datatype Item<V> = Item(caption: string, value: V)

  const DefaultPlaceholder: string := "Selecione um item..."

  /** The label on the trigger: that of the FIRST item holding the selected
      value, or the placeholder when no item holds it. */
  function SelectedLabel<V(==)>(items: seq<Item<V>>, selected: V, placeholder: string): (r: string)
    ensures (forall i :: 0 <= i < |items| ==> items[i].value != selected) ==> r == placeholder
    ensures forall i ::
              0 <= i < |items| && items[i].value == selected &&
              (forall j :: 0 <= j < i ==> items[j].value != selected)
              ==> r == items[i].caption
  {
    var holds := (it: Item<V>) => it.value == selected;
    var found := Find(items, holds);
    assert forall i :: IsFirstMatch(items, holds, i) ==> found == Some(items[i]) by {
      forall i | IsFirstMatch(items, holds, i) ensures found == Some(items[i]) {
        FindAt(items, holds, i);
      }
    }
    if found.Some? then found.value.caption else placeholder
  }

  /** The search test for one item: its lower-cased label contains the
      lower-cased query. */
  predicate Matches<V>(item: Item<V>, query: string) {
    Includes(ToLower(item.caption), ToLower(query))
  }

  /** `filteredItems`: every item for an empty query; otherwise the items
      that match, every one of them, in their original order. */
  function FilteredItems<V>(items: seq<Item<V>>, query: string): (r: seq<Item<V>>)
    ensures |query| == 0 ==> r == items
    ensures |query| > 0 ==> IsSubsequence(r, items)
    ensures |query| > 0 ==> forall k :: 0 <= k < |r| ==> Matches(r[k], query)
    ensures |query| > 0 ==> forall i :: 0 <= i < |items| && Matches(items[i], query) ==> items[i] in r
    ensures |query| > 0 ==> |r| == Count(items, (it: Item<V>) => Matches(it, query))
  {
    if |query| == 0 then items else Filter(items, (it: Item<V>) => Matches(it, query))
  }

  /** The shortcut for an empty query agrees with filtering: every label
      contains the empty string. */
  lemma EmptyQueryKeepsAll<V>(items: seq<Item<V>>)
    ensures Filter(items, (it: Item<V>) => Matches(it, "")) == items
  {
    forall i | 0 <= i < |items| ensures Matches(items[i], "") {
      assert OccursAt(ToLower(items[i].caption), ToLower(""), 0);
    }
    FilterAll(items, (it: Item<V>) => Matches(it, ""));
  }

  /** Two queries that lower-case alike select the same items. */
  lemma FilterIgnoresQueryCase<V>(items: seq<Item<V>>, q1: string, q2: string)
    requires ToLower(q1) == ToLower(q2)
    ensures FilteredItems(items, q1) == FilteredItems(items, q2)
  {
    FilterCongruent(items, (it: Item<V>) => Matches(it, q1), (it: Item<V>) => Matches(it, q2));
  }

  /** Upper-casing the query, for instance, changes nothing. */
  lemma FilterIgnoresUpperCase<V>(items: seq<Item<V>>, q: string)
    ensures FilteredItems(items, ToUpper(q)) == FilteredItems(items, q)
  {
    assert ToLower(ToUpper(q)) == ToLower(q);
    FilterIgnoresQueryCase(items, ToUpper(q), q);
  }

  /** The picker's own state: whether the modal is shown and the search text. */
  class Picker<V(==)> {
    const items: seq<Item<V>>
    const enabled: bool
    const placeholder: string
    var modalVisible: bool
    var searchQuery: string

    constructor (items: seq<Item<V>>, enabled: bool, placeholder: string)
      ensures this.items == items && this.enabled == enabled && this.placeholder == placeholder
      ensures !modalVisible && searchQuery == ""
    {
      this.items := items;
      this.enabled := enabled;
      this.placeholder := placeholder;
      modalVisible := false;
      searchQuery := "";
    }

    /** The items listed in the modal. */
    function Listed(): seq<Item<V>>
      reads this
    {
      FilteredItems(items, searchQuery)
    }

    /** Pressing the trigger opens the modal only when the picker is enabled. */
    method PressTrigger()
      modifies this
      ensures modalVisible == (old(modalVisible) || enabled)
      ensures searchQuery == old(searchQuery)
    {
      if enabled {
        modalVisible := true;
      }
    }

    /** Typing in the search box. */
    method Search(text: string)
      modifies this
      ensures searchQuery == text && modalVisible == old(modalVisible)
    {
      searchQuery := text;
    }

    /** `handleSelect`: reports exactly the item's value, hides the modal and
        clears the search. */
    method Select(item: Item<V>) returns (reported: V)
      modifies this
      ensures reported == item.value
      ensures !modalVisible && searchQuery == ""
    {
      reported := item.value;
      modalVisible := false;
      searchQuery := "";
    }

    /** Both ways of closing, the system back request and the close button,
        hide the modal and clear the search. */
    method Close()
      modifies this
      ensures !modalVisible && searchQuery == ""
    {
      modalVisible := false;
      searchQuery := "";
    }
  }
}
