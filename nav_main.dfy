/** The sidebar's collapsible groups: which titles are open, and the toggle
    that copies the open-title set and flips one title in the copy. */
module NavMain {

  /** A JavaScript `Set` of titles, updated in place. */
  class TitleSet {
    var elems: set<string>

    constructor Empty()
      ensures elems == {}
    {
      elems := {};
    }

    /** `new Set(prev)`: a fresh set with the same members. */
    constructor Copy(prev: TitleSet)
      ensures elems == prev.elems
    {
      elems := prev.elems;
    }

    method Has(t: string) returns (b: bool)
      ensures b <==> t in elems
    {
      b := t in elems;
    }

    method Add(t: string)
      modifies this
      ensures elems == old(elems) + {t}
    {
      elems := elems + {t};
    }

    method Delete(t: string)
      modifies this
      ensures elems == old(elems) - {t}
    {
      elems := elems - {t};
    }
  }

  /** The set after toggling `title`. */
  function Toggled(s: set<string>, title: string): (r: set<string>)
    ensures title in r <==> title !in s
    ensures forall t :: t != title ==> (t in r <==> t in s)
  {
    if title in s then s - {title} else s + {title}
  }

  /** Toggling the same title twice gives back the original set. */
  lemma ToggleTwice(s: set<string>, title: string)
    ensures Toggled(Toggled(s, title), title) == s
  {
  }

  /** Toggles of different titles commute, so the open groups depend only on
      how often each title was toggled. */
  lemma TogglesCommute(s: set<string>, a: string, b: string)
    ensures Toggled(Toggled(s, a), b) == Toggled(Toggled(s, b), a)
  {
  }

  /** `toggleItem`'s state updater: copy `prev`, then delete the title if it
      is present or add it otherwise. `prev` itself is left as it was. */
  method ToggleItem(prev: TitleSet, title: string) returns (next: TitleSet)
    ensures fresh(next)
    ensures next.elems == Toggled(prev.elems, title)
    ensures prev.elems == old(prev.elems)
  {
    next := new TitleSet.Copy(prev);
    var present := next.Has(title);
    if present {
      next.Delete(title);
    } else {
      next.Add(title);
    }
  }

  /** `open={openItems.has(item.title)}` for every item, in item order. */
  function OpenFlags(titles: seq<string>, openItems: set<string>): (r: seq<bool>)
    ensures |r| == |titles|
    ensures forall i :: 0 <= i < |titles| ==> (r[i] <==> titles[i] in openItems)
  {
    seq(|titles|, i requires 0 <= i < |titles| => titles[i] in openItems)
  }

  /** Clicking one group flips that group alone (every group sharing its
      title flips with it); the other groups keep their state. */
  lemma ToggleFlipsOnlyThatGroup(titles: seq<string>, openItems: set<string>, k: int)
    requires 0 <= k < |titles|
    ensures var before := OpenFlags(titles, openItems);
      var after := OpenFlags(titles, Toggled(openItems, titles[k]));
      && after[k] == !before[k]
      && forall i :: 0 <= i < |titles| && titles[i] != titles[k] ==> after[i] == before[i]
  {
  }
}
