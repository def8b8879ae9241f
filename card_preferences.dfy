/** The card preferences screen (`app/views/preferences/CardPreferences.js`):
    it numbers the cards in their current order, lets the sortable list report a
    new order of those numbers, and on release turns the numbers back into card
    ids for the `ORDER_CARDS` action. */
module CardPreferences {
  import opened Js
  import opened Seqs

  /** A card of the home screen as the store holds it. */
  datatype Card = Card(id: string, active: bool)

  /** `cards[key]`: `undefined` (None) for a key the store has no card for. */
  function Lookup(cards: map<string, Card>, key: string): Option<Card>
  {
    if key in cards then Some(cards[key]) else None
  }

  /** The object `getCardObject` builds: position `i` of `cardOrder` to the card
      stored under `cardOrder[i]`; nothing at all when `cardOrder` is not an array. */
  function CardObjectOf(cards: map<string, Card>, cardOrder: MaybeArray<string>): map<nat, Option<Card>>
  {
    match cardOrder
    case NotArray => map[]
    case Array(keys) => map i: nat | i < |keys| :: Lookup(cards, keys[i])
  }

  /** `getCardObject(cards, cardOrder)`. */
  method GetCardObject(cards: map<string, Card>, cardOrder: MaybeArray<string>)
    returns (cardObject: map<nat, Option<Card>>)
    ensures cardObject == CardObjectOf(cards, cardOrder)
  {
    cardObject := map[];
    if cardOrder.Array? {
      var keys := cardOrder.items;
      for i := 0 to |keys|
        invariant cardObject == map j: nat | j < i :: Lookup(cards, keys[j])
      {
        var key := keys[i];
        cardObject := cardObject[i := Lookup(cards, key)];
      }
    }
  }

  /** The ids read off the numbered cards in the order `order` lists them;
      None when a number has no card behind it, where `getOrderedArray`
      reads `.id` of `undefined` and throws a TypeError. */
  function OrderedIds(cardObject: map<nat, Option<Card>>, order: seq<nat>): (r: Option<seq<string>>)
    ensures r.Some? <==> forall i :: 0 <= i < |order| ==> order[i] in cardObject && cardObject[order[i]].Some?
    ensures r.Some? ==>
              && |r.value| == |order|
              && forall i :: 0 <= i < |order| ==> r.value[i] == cardObject[order[i]].value.id
  {
    if order == [] then Some([])
    else
      var front := OrderedIds(cardObject, order[..|order| - 1]);
      var last := order[|order| - 1];
      if front.None? || last !in cardObject || cardObject[last].None? then None
      else Some(front.value + [cardObject[last].value.id])
  }

  /** What `_handleRelease` makes the app do. */
  datatype CardEffect = OrderCards(newOrder: seq<string>) | ToggleScroll

  /** The effects dispatched on release, and whether the handler threw before
      finishing. */
  datatype Release = Release(dispatched: seq<CardEffect>, threw: bool)

  function ReleaseOf(cardObject: map<nat, Option<Card>>, order: MaybeArray<nat>): Release
  {
    match order
    case NotArray => Release([ToggleScroll], false)
    case Array(items) =>
      match OrderedIds(cardObject, items)
      case None => Release([], true)
      case Some(ids) => Release([OrderCards(ids), ToggleScroll], false)
  }

  /** Releasing a row always toggles the parent's scrolling unless reading
      the order threw, and reports the new order exactly when there is one. */
  lemma ReleaseEffects(cardObject: map<nat, Option<Card>>, order: MaybeArray<nat>)
    ensures var r := ReleaseOf(cardObject, order);
      && (r.threw <==> order.Array? && OrderedIds(cardObject, order.items).None?)
      && (!r.threw ==> r.dispatched[|r.dispatched| - 1] == ToggleScroll)
      && (r.threw ==> r.dispatched == [])
      && (forall i :: 0 <= i < |r.dispatched| && r.dispatched[i].OrderCards? ==>
            order.Array? && Some(r.dispatched[i].newOrder) == OrderedIds(cardObject, order.items))
      && (order.Array? && OrderedIds(cardObject, order.items).Some? ==> r.dispatched[0].OrderCards?)
  {
  }

  /** The screen's own state: `state.cardObject` and the field `_order`, which
      stays `undefined` until the sortable list first reports an order. */
  class CardPreferences {
    var cardObject: map<nat, Option<Card>>
    var order: MaybeArray<nat>

    /** `componentWillMount`. */
    constructor(cards: map<string, Card>, cardOrder: MaybeArray<string>)
      ensures cardObject == CardObjectOf(cards, cardOrder)
      ensures order == NotArray
    {
      var built := GetCardObject(cards, cardOrder);
      cardObject := built;
      order := NotArray;
    }

    /** The sortable list's `onChangeOrder` callback. */
    method OnChangeOrder(nextOrder: MaybeArray<nat>)
      modifies this
      ensures order == nextOrder && cardObject == old(cardObject)
    {
      order := nextOrder;
    }

    /** `getOrderedArray()`; its only caller checks that `_order` is an array. */
    method GetOrderedArray() returns (r: Option<seq<string>>)
      requires order.Array?
      ensures r == OrderedIds(cardObject, order.items)
    {
      var items := order.items;
      var orderArray: seq<string> := [];
      for i := 0 to |items|
        invariant Some(orderArray) == OrderedIds(cardObject, items[..i])
      {
        assert items[..i + 1][..i] == items[..i];
        var key := items[i];
        if key !in cardObject || cardObject[key].None? {
          NoneStaysNone(cardObject, items, i + 1);
          return None;
        }
        orderArray := orderArray + [cardObject[key].value.id];
      }
      assert items[..|items|] == items;
      r := Some(orderArray);
    }

    /** `_handleRelease()`. */
    method HandleRelease() returns (r: Release)
      ensures r == ReleaseOf(cardObject, order)
    {
      var dispatched: seq<CardEffect> := [];
      if order.Array? {
        var ordered := GetOrderedArray();
        if ordered.None? {
          return Release(dispatched, true);
        }
        dispatched := dispatched + [OrderCards(ordered.value)];
      }
      dispatched := dispatched + [ToggleScroll];
      r := Release(dispatched, false);
    }
  }

  /** Once a prefix of the order hits a missing card, so does the whole order. */
  lemma {:induction false} NoneStaysNone(cardObject: map<nat, Option<Card>>, order: seq<nat>, k: nat)
    requires k <= |order| && OrderedIds(cardObject, order[..k]).None?
    ensures OrderedIds(cardObject, order).None?
  {
    var i :| 0 <= i < k && !(order[..k][i] in cardObject && cardObject[order[..k][i]].Some?);
    assert order[i] == order[..k][i];
  }

  /** The ids of the cards in their stored order, assuming every key has a card. */
  function IdsOf(cards: map<string, Card>, cardOrder: seq<string>): (ids: seq<string>)
    requires forall k | k in cardOrder :: k in cards
    ensures |ids| == |cardOrder|
  {
    seq(|cardOrder|, i requires 0 <= i < |cardOrder| => cards[cardOrder[i]].id)
  }

  /** What `getCardObject` stored under number `j`. */
  lemma CardAt(cards: map<string, Card>, cardOrder: seq<string>, j: nat)
    requires forall k | k in cardOrder :: k in cards
    requires j < |cardOrder|
    ensures var obj := CardObjectOf(cards, Array(cardOrder));
      j in obj && obj[j].Some? && obj[j].value.id == IdsOf(cards, cardOrder)[j]
  {
    assert cardOrder[j] in cardOrder;
  }

  /** Every number in `o` is below `n`. */
  predicate Bounded(o: seq<nat>, n: nat)
  {
    forall i :: 0 <= i < |o| ==> o[i] < n
  }

  /** `c[o[0]], c[o[1]], ...`. */
  function Reindex<T>(c: seq<T>, o: seq<nat>): (r: seq<T>)
    requires Bounded(o, |c|)
    ensures |r| == |o|
  {
    if o == [] then [] else [c[o[0]]] + Reindex(c, o[1..])
  }

  lemma {:induction false} ReindexAt<T>(c: seq<T>, o: seq<nat>, i: nat)
    requires Bounded(o, |c|)
    requires i < |o|
    ensures Reindex(c, o)[i] == c[o[i]]
  {
    if i > 0 {
      ReindexAt(c, o[1..], i - 1);
    }
  }

  /** Reading the numbered cards back in a new order of their numbers gives the
      ids of the cards, rearranged by that order. */
  lemma OrderedIsReindexed(cards: map<string, Card>, cardOrder: seq<string>, order: seq<nat>)
    requires forall k | k in cardOrder :: k in cards
    requires Bounded(order, |cardOrder|)
    ensures OrderedIds(CardObjectOf(cards, Array(cardOrder)), order) == Some(Reindex(IdsOf(cards, cardOrder), order))
  {
    var obj := CardObjectOf(cards, Array(cardOrder));
    var ids := IdsOf(cards, cardOrder);
    var want := Reindex(ids, order);
    forall i | 0 <= i < |order|
      ensures order[i] in obj && obj[order[i]].Some? && obj[order[i]].value.id == want[i]
    {
      CardAt(cards, cardOrder, order[i]);
      ReindexAt(ids, order, i);
    }
    var r := OrderedIds(obj, order);
    assert r.value == want;
  }

  function Range(n: nat): (r: seq<nat>)
    ensures |r| == n && forall i :: 0 <= i < n ==> r[i] == i
  {
    seq(n, i requires 0 <= i < n => i)
  }

  /** Releasing without moving anything hands back the stored order: with the
      cards numbered `0 .. n-1` and each card stored under its own id,
      `getOrderedArray` returns `cardOrder` itself. */
  lemma IdentityOrderRoundTrip(cards: map<string, Card>, cardOrder: seq<string>)
    requires forall k | k in cardOrder :: k in cards && cards[k].id == k
    ensures OrderedIds(CardObjectOf(cards, Array(cardOrder)), Range(|cardOrder|)) == Some(cardOrder)
  {
    var n := |cardOrder|;
    OrderedIsReindexed(cards, cardOrder, Range(n));
    var ids := IdsOf(cards, cardOrder);
    forall i | 0 <= i < n ensures Reindex(ids, Range(n))[i] == cardOrder[i] {
      ReindexAt(ids, Range(n), i);
      assert cardOrder[i] in cardOrder;
    }
    assert Reindex(ids, Range(n)) == cardOrder;
  }

  lemma {:induction false} RemoveFirstBounded(o: seq<nat>, x: nat, n: nat)
    requires Bounded(o, n)
    ensures Bounded(RemoveFirst(o, x), n)
  {
    if o != [] && o[0] != x {
      RemoveFirstBounded(o[1..], x, n);
      var rest := RemoveFirst(o, x);
      assert rest == [o[0]] + RemoveFirst(o[1..], x);
      forall i | 0 <= i < |rest| ensures rest[i] < n {
        if i > 0 { assert rest[i] == RemoveFirst(o[1..], x)[i - 1]; }
      }
    }
  }

  /** Taking one number out of an order takes its id out of the ids picked. */
  lemma {:induction false} ReindexRemoveFirst<T>(c: seq<T>, o: seq<nat>, x: nat)
    requires Bounded(o, |c|)
    requires x in o
    ensures Bounded(RemoveFirst(o, x), |c|)
    ensures multiset(Reindex(c, o)) == multiset(Reindex(c, RemoveFirst(o, x))) + multiset{c[x]}
  {
    RemoveFirstBounded(o, x, |c|);
    var rest := RemoveFirst(o, x);
    if o[0] != x {
      ReindexRemoveFirst(c, o[1..], x);
      assert rest == [o[0]] + RemoveFirst(o[1..], x);
      assert rest[0] == o[0] && rest[1..] == RemoveFirst(o[1..], x);
    }
  }

  /** Matching the first number of `o1` with its first occurrence in `o2`
      leaves two shorter orders with the same numbers. */
  lemma PermutationTail(o1: seq<nat>, o2: seq<nat>, n: nat)
    requires o1 != [] && Bounded(o2, n)
    requires multiset(o1) == multiset(o2)
    ensures o1[0] in o2
    ensures multiset(o1[1..]) == multiset(RemoveFirst(o2, o1[0]))
    ensures Bounded(RemoveFirst(o2, o1[0]), n)
  {
    assert o1 == [o1[0]] + o1[1..];
    assert o1[0] in multiset(o2);
    RemoveFirstMultiset(o2, o1[0]);
    RemoveFirstBounded(o2, o1[0], n);
  }

  lemma ReindexCons<T>(c: seq<T>, o: seq<nat>)
    requires o != [] && Bounded(o, |c|)
    ensures multiset(Reindex(c, o)) == multiset(Reindex(c, o[1..])) + multiset{c[o[0]]}
  {
    var tail := Reindex(c, o[1..]);
    assert Reindex(c, o) == [c[o[0]]] + tail;
    assert multiset([c[o[0]]] + tail) == multiset{c[o[0]]} + multiset(tail);
  }

  /** The inductive step of `ReindexPermutation`, given the claim for the tails. */
  lemma PermutationStep<T>(c: seq<T>, o1: seq<nat>, o2: seq<nat>)
    requires o1 != [] && Bounded(o1, |c|) && Bounded(o2, |c|) && o1[0] in o2
    requires Bounded(RemoveFirst(o2, o1[0]), |c|)
    requires multiset(Reindex(c, o1[1..])) == multiset(Reindex(c, RemoveFirst(o2, o1[0])))
    ensures multiset(Reindex(c, o1)) == multiset(Reindex(c, o2))
  {
    ReindexRemoveFirst(c, o2, o1[0]);
    ReindexCons(c, o1);
  }

  /** Two orders with the same numbers pick the same ids, each as often. */
  lemma {:induction false} ReindexPermutation<T>(c: seq<T>, o1: seq<nat>, o2: seq<nat>)
    requires Bounded(o1, |c|) && Bounded(o2, |c|)
    requires multiset(o1) == multiset(o2)
    ensures multiset(Reindex(c, o1)) == multiset(Reindex(c, o2))
    decreases |o1|
  {
    if o1 == [] {
      assert |o2| == |multiset(o2)| == 0;
    } else {
      PermutationTail(o1, o2, |c|);
      ReindexPermutation(c, o1[1..], RemoveFirst(o2, o1[0]));
      PermutationStep(c, o1, o2);
    }
  }

  /** When the new order is a rearrangement of the card numbers, the ids
      reported are the stored ids rearranged: every card once, none lost. */
  lemma ReleasedOrderIsPermutation(cards: map<string, Card>, cardOrder: seq<string>, order: seq<nat>)
    requires forall k | k in cardOrder :: k in cards && cards[k].id == k
    requires multiset(order) == multiset(Range(|cardOrder|))
    ensures var r := OrderedIds(CardObjectOf(cards, Array(cardOrder)), order);
      r.Some? && multiset(r.value) == multiset(cardOrder)
  {
    var n := |cardOrder|;
    forall i | 0 <= i < |order| ensures order[i] < n {
      assert order[i] in multiset(Range(n));
    }
    OrderedIsReindexed(cards, cardOrder, order);
    OrderedIsReindexed(cards, cardOrder, Range(n));
    IdentityOrderRoundTrip(cards, cardOrder);
    ReindexPermutation(IdsOf(cards, cardOrder), order, Range(n));
  }

  /** The row-hiding test in `render`: the conference card is hidden exactly
      when the store has no conference data. */
  predicate RowHidden(card: Card, conferenceData: Value)
  {
    card.id == "conference" && !Truthy(conferenceData)
  }

  /** The rows the sortable list shows, in order. */
  function RenderedRows(rows: seq<Card>, conferenceData: Value): seq<Card>
  {
    Filter(rows, (card: Card) => !RowHidden(card, conferenceData))
  }

  /** Only the conference card can be hidden, and only while there is no
      conference data; the others keep their order. */
  lemma RenderedRowsShown(rows: seq<Card>, conferenceData: Value)
    ensures forall card ::
              card in RenderedRows(rows, conferenceData) <==>
                card in rows && (card.id != "conference" || Truthy(conferenceData))
    ensures IsSubsequence(RenderedRows(rows, conferenceData), rows)
    ensures Truthy(conferenceData) ==> RenderedRows(rows, conferenceData) == rows
  {
    var keep := (card: Card) => !RowHidden(card, conferenceData);
    forall card ensures card in Filter(rows, keep) <==> card in rows && keep(card) {
      FilterMembership(rows, keep, card);
    }
    FilterIsSubsequence(rows, keep);
    if Truthy(conferenceData) {
      FilterKeepsAll(rows, keep);
    }
  }
}
