/**
 * The visitor strip on the home screen (VisitorsSection.kt): three
 * placeholders while loading; otherwise an "add" card, at most five visitor
 * cards and, when there are more visitors, a "+n" card counting the rest.
 */
module VisitorsSection {
  import opened Common
  import opened Text
  import opened Domain

  const MaxVisitorCards := 5
  const PlaceholderCount := 3

  datatype StripItem = Placeholder | AddCard | VisitorCard(visitor: Visitor) | MoreVisitorsCard(count: nat)

  function Min(a: nat, b: nat): nat {
    if a <= b then a else b
  }

  /** The items of the strip, left to right. */
  function VisitorStrip(visitors: seq<Visitor>, isLoading: bool): (items: seq<StripItem>)
    ensures isLoading ==> items == [Placeholder, Placeholder, Placeholder]
    ensures !isLoading ==>
      var shown := Min(|visitors|, MaxVisitorCards);
      |items| == 1 + shown + (if |visitors| > MaxVisitorCards then 1 else 0) &&
      items[0] == AddCard &&
      (forall i :: 0 <= i < shown ==> items[1 + i] == VisitorCard(visitors[i])) &&
      (|visitors| > MaxVisitorCards <==> items[|items| - 1].MoreVisitorsCard?)
  {
    if isLoading then seq(PlaceholderCount, _ => Placeholder)
    else
      var cards := seq(Min(|visitors|, MaxVisitorCards), i requires 0 <= i < Min(|visitors|, MaxVisitorCards) => VisitorCard(visitors[i]));
      [AddCard] + cards + (if |visitors| > MaxVisitorCards then [MoreVisitorsCard(|visitors| - MaxVisitorCards)] else [])
  }

  /** The visitors shown on cards, in strip order. */
  function CardVisitors(items: seq<StripItem>): seq<Visitor> {
    if items == [] then []
    else (if items[0].VisitorCard? then [items[0].visitor] else []) + CardVisitors(items[1..])
  }

  /** The number written on the "+n" card, or 0 when there is none. */
  function OverflowCount(items: seq<StripItem>): nat {
    if items == [] then 0
    else (if items[0].MoreVisitorsCard? then items[0].count else 0) + OverflowCount(items[1..])
  }

  lemma {:induction false} CardVisitorsAppend(a: seq<StripItem>, b: seq<StripItem>)
    ensures CardVisitors(a + b) == CardVisitors(a) + CardVisitors(b)
    ensures OverflowCount(a + b) == OverflowCount(a) + OverflowCount(b)
  {
    if a == [] {
      assert a + b == b;
    } else {
      assert (a + b)[0] == a[0] && (a + b)[1..] == a[1..] + b;
      CardVisitorsAppend(a[1..], b);
    }
  }

  lemma {:induction false} CardsOnly(vs: seq<Visitor>, cards: seq<StripItem>)
    requires |cards| == |vs|
    requires forall i :: 0 <= i < |vs| ==> cards[i] == VisitorCard(vs[i])
    ensures CardVisitors(cards) == vs && OverflowCount(cards) == 0
  {
    if vs != [] {
      CardsOnly(vs[1..], cards[1..]);
    }
  }

  /**
   * The cards show the first visitors in input order, and every visitor is
   * either on a card or counted by the "+n" card, which says at least 1.
   */
  lemma StripAccountsForEveryone(visitors: seq<Visitor>)
    ensures var items := VisitorStrip(visitors, false);
      CardVisitors(items) == visitors[..Min(|visitors|, MaxVisitorCards)] &&
      |CardVisitors(items)| + OverflowCount(items) == |visitors|
    ensures forall item :: item in VisitorStrip(visitors, false) && item.MoreVisitorsCard? ==> item.count >= 1
  {
    var shown := Min(|visitors|, MaxVisitorCards);
    var cards := seq(shown, i requires 0 <= i < shown => VisitorCard(visitors[i]));
    var more := if |visitors| > MaxVisitorCards then [MoreVisitorsCard(|visitors| - MaxVisitorCards)] else [];
    var items := VisitorStrip(visitors, false);
    assert items == [AddCard] + cards + more;
    StripSums(visitors[..shown], cards, more);
    assert CardVisitors(items) == visitors[..shown];
    assert OverflowCount(items) == |visitors| - shown by {
      OverflowOfMore(more, |visitors| - shown);
    }
    forall item | item in items && item.MoreVisitorsCard? ensures item.count >= 1 {
      assert item !in [AddCard] + cards;
    }
  }

  /** The card visitors and the overflow of an "add" card, cards and a tail. */
  lemma StripSums(vs: seq<Visitor>, cards: seq<StripItem>, more: seq<StripItem>)
    requires |cards| == |vs|
    requires forall i :: 0 <= i < |vs| ==> cards[i] == VisitorCard(vs[i])
    requires forall item :: item in more ==> !item.VisitorCard?
    ensures CardVisitors([AddCard] + cards + more) == vs
    ensures OverflowCount([AddCard] + cards + more) == OverflowCount(more)
  {
    CardsOnly(vs, cards);
    CardVisitorsAppend([AddCard], cards);
    CardVisitorsAppend([AddCard] + cards, more);
    assert CardVisitors([AddCard]) == [] && OverflowCount([AddCard]) == 0 by {
      CardVisitorsAppend([AddCard], []);
    }
    NoCards(more);
  }

  lemma {:induction false} NoCards(items: seq<StripItem>)
    requires forall item :: item in items ==> !item.VisitorCard?
    ensures CardVisitors(items) == []
  {
    if items != [] {
      assert items[0] in items;
      NoCards(items[1..]);
    }
  }

  lemma OverflowOfMore(more: seq<StripItem>, rest: nat)
    requires more == [] || more == [MoreVisitorsCard(rest)]
    requires more == [] ==> rest == 0
    ensures OverflowCount(more) == rest
  {
    if more != [] {
      CardVisitorsAppend(more, []);
    }
  }

  /** The text of the "+n" card. */
  function MoreVisitorsLabel(count: nat): string {
    "+" + NatToString(count)
  }

  /** The label reads back as the number of visitors left off the strip. */
  lemma MoreVisitorsLabelRoundTrip(count: nat)
    requires InLongRange(count)
    ensures ParseLong(MoreVisitorsLabel(count)) == Some(count)
  {
    NatToStringParses(count);
    var s := MoreVisitorsLabel(count);
    assert s[1..] == NatToString(count);
  }
}
