/** The filter state of the dining detail screen
    (`app/views/dining/DiningDetail.js`): a meal name selects the meal shown,
    any other filter name is switched on or off in the list of active filters. */
module Dining {
  import opened Seqs

  predicate IsMeal(name: string) {
    name == "Breakfast" || name == "Lunch" || name == "Dinner"
  }

  predicate NoDuplicates(s: seq<string>) {
    forall x | x in s :: multiset(s)[x] == 1
  }

  /** The new filter list: an absent filter is appended, a present one has its
      first occurrence spliced out. */
  function Toggle(filters: seq<string>, filter: string): seq<string>
  {
    if filter !in filters then filters + [filter] else RemoveFirst(filters, filter)
  }

  /** Switching a filter removes exactly one copy of it or adds one at the
      end, and keeps the others in their order. */
  lemma ToggleChanges(filters: seq<string>, filter: string)
    ensures filter !in filters ==> Toggle(filters, filter) == filters + [filter]
    ensures filter in filters ==>
              && multiset(Toggle(filters, filter)) == multiset(filters) - multiset{filter}
              && IsSubsequence(Toggle(filters, filter), filters)
              && Toggle(filters, filter) == filters[..IndexOf(filters, filter)] + filters[IndexOf(filters, filter) + 1..]
  {
    if filter in filters {
      RemoveFirstMultiset(filters, filter);
      RemoveFirstIsSplice(filters, filter);
    }
  }

  /** On a list without repeats, toggling is the symmetric difference with
      `{filter}`, and no repeat appears. */
  lemma ToggleIsSwitch(filters: seq<string>, filter: string)
    requires NoDuplicates(filters)
    ensures NoDuplicates(Toggle(filters, filter))
    ensures forall x :: x in Toggle(filters, filter) <==> (x in filters <==> x != filter)
  {
    var r := Toggle(filters, filter);
    if filter in filters {
      RemoveFirstMultiset(filters, filter);
      assert multiset(r) == multiset(filters) - multiset{filter};
      forall x ensures x in r <==> (x in filters <==> x != filter) {
        assert x in r <==> multiset(r)[x] > 0;
        assert x in filters <==> multiset(filters)[x] > 0;
      }
    } else {
      assert multiset(r) == multiset(filters) + multiset{filter};
      forall x ensures x in r <==> (x in filters <==> x != filter) {
        assert x in r <==> multiset(r)[x] > 0;
        assert x in filters <==> multiset(filters)[x] > 0;
      }
    }
  }

  /** Switching an absent filter on and off again restores the list exactly. */
  lemma {:induction false} ToggleTwiceAbsent(filters: seq<string>, filter: string)
    requires filter !in filters
    ensures Toggle(Toggle(filters, filter), filter) == filters
  {
    RemoveFirstAfter(filters, filter, []);
    assert filters + [filter] + [] == filters + [filter];
    assert filters + [] == filters;
  }

  /** Without repeats, the first occurrence of a present filter is its only one. */
  lemma RemovedForGood(filters: seq<string>, filter: string)
    requires NoDuplicates(filters) && filter in filters
    ensures filter !in RemoveFirst(filters, filter)
  {
    RemoveFirstMultiset(filters, filter);
    assert multiset(RemoveFirst(filters, filter))[filter] == 0;
  }

  /** A filter that is already last comes back to the same place. */
  lemma LastStaysPut(filters: seq<string>, filter: string)
    requires NoDuplicates(filters) && filter in filters
    ensures RemoveFirst(filters, filter) + [filter] == filters <==> filters[|filters| - 1] == filter
  {
    if filters[|filters| - 1] == filter {
      var front := filters[..|filters| - 1];
      assert filters == front + [filter] + [];
      assert filter !in front by {
        assert multiset(filters) == multiset(front) + multiset{filter};
      }
      RemoveFirstAfter(front, filter, []);
      assert front + [] == front;
    }
  }

  /** Switching a present filter off and on again moves it to the end: the
      list has the same elements, and is the original exactly when the filter
      was already last. */
  lemma ToggleTwicePresent(filters: seq<string>, filter: string)
    requires NoDuplicates(filters) && filter in filters
    ensures var twice := Toggle(Toggle(filters, filter), filter);
      && twice == RemoveFirst(filters, filter) + [filter]
      && multiset(twice) == multiset(filters)
      && (twice == filters <==> filters[|filters| - 1] == filter)
  {
    RemovedForGood(filters, filter);
    assert multiset(RemoveFirst(filters, filter) + [filter]) == multiset(filters) by {
      RemoveFirstMultiset(filters, filter);
    }
    LastStaysPut(filters, filter);
  }

  /** The screen's filter state: `this.state.filters` and `this.state.activeMeal`. */
  class DiningDetail {
    var filters: seq<string>
    var activeMeal: string

    /** The state the screen keeps from its first render on. */
    ghost predicate Valid()
      reads this
    {
      && NoDuplicates(filters)
      && (forall x | x in filters :: !IsMeal(x))
      && IsMeal(activeMeal)
    }

    constructor()
      ensures filters == [] && activeMeal == "Breakfast"
      ensures Valid()
    {
      filters := [];
      activeMeal := "Breakfast";
    }

    /** `addFilter(filter)`. */
    method AddFilter(filter: string)
      modifies this
      ensures IsMeal(filter) ==> activeMeal == filter && filters == old(filters)
      ensures !IsMeal(filter) ==> activeMeal == old(activeMeal) && filters == Toggle(old(filters), filter)
      ensures old(Valid()) ==> Valid()
    {
      if filter == "Breakfast" || filter == "Lunch" || filter == "Dinner" {
        activeMeal := filter;
      } else {
        if IndexOf(filters, filter) < 0 {
          filters := filters + [filter];
        } else {
          var temp := filters;
          var i := IndexOf(temp, filter);
          RemoveFirstIsSplice(temp, filter);
          temp := temp[..i] + temp[i + 1..];
          filters := temp;
        }
        if old(Valid()) {
          ToggleIsSwitch(old(filters), filter);
        }
      }
    }
  }
}
