/** The search box (search.js): a flat list of tagged entries built from the
    page's canteen and menu cards and from the notification and order
    lists, a case-insensitive substring filter, grouping by entry type, and
    the elapsed-time labels shown next to results. */
module Search {
  import opened Wrappers
  import opened Text
  import opened Sequences
  import Orders
  import Notifications

  datatype EntryType = CanteenEntry | MenuItemEntry | NotificationEntry | OrderEntry

  /** A searchable entry. A field the source record lacks holds "", which is
      what `${field || ''}` puts into the composite search text. */
  datatype Entry = Entry(kind: EntryType, name: string, description: string, itemNumber: string,
                         price: string, canteen: string, status: string)

  /** A canteen option card: its heading and description text. */
  datatype CanteenCard = CanteenCard(title: string, description: string)

  /** A menu item card: heading, optional description, price text, the id
      of the enclosing menu section (if any) and the optional item number. */
  datatype MenuCard = MenuCard(title: string, description: Option<string>, price: string,
                               sectionId: Option<string>, itemNumber: Option<string>)

  // ---------------------------------------------------------------------
  // Building the entries (`collectSearchableItems`)

  /** A page-level list that may be missing is treated as empty. */
  function ListOrEmpty<T>(o: Option<seq<T>>): seq<T>
  {
    if o.Some? then o.value else []
  }

  function OrEmpty(s: Option<string>): string
  {
    match s
    case Some(v) => v
    case None => ""
  }

  /** The canteen label of a menu item, from the id of its menu section. */
  function CanteenLabel(sectionId: Option<string>): string
  {
    match sectionId
    case None => ""
    case Some(id) => if Contains(id, "common") then "Common Canteen" else "Parking Canteen"
  }

  function CanteenEntryOf(c: CanteenCard): Entry
  {
    Entry(CanteenEntry, c.title, c.description, "", "", "", "")
  }

  function MenuEntryOf(m: MenuCard): Entry
  {
    Entry(MenuItemEntry, m.title, OrEmpty(m.description), OrEmpty(m.itemNumber), m.price, CanteenLabel(m.sectionId), "")
  }

  function NotificationEntryOf(n: Notifications.Notification): Entry
  {
    Entry(NotificationEntry, n.title, n.message, "", "", "", "")
  }

  /** `${order.price || ''}`: a zero price is falsy and shows as "". */
  function PriceText(price: int): string
  {
    if price == 0 then "" else IntToString(price)
  }

  function OrderEntryOf(o: Orders.Order): Entry
  {
    Entry(OrderEntry, "Order #" + o.token, o.item + " - Quantity: " + IntToString(o.quantity),
          "", PriceText(o.price), "", Orders.StatusName(o.status))
  }

  /** The entries in collection order: canteens, menu items, then the
      notification and order lists when the page exposes them. */
  function Collected(canteens: seq<CanteenCard>, menu: seq<MenuCard>,
                     notifications: Option<seq<Notifications.Notification>>,
                     orders: Option<seq<Orders.Order>>): seq<Entry>
  {
    Map(CanteenEntryOf, canteens) + Map(MenuEntryOf, menu)
    + Map(NotificationEntryOf, ListOrEmpty(notifications)) + Map(OrderEntryOf, ListOrEmpty(orders))
  }

  function Rank(t: EntryType): nat
  {
    match t
    case CanteenEntry => 0
    case MenuItemEntry => 1
    case NotificationEntry => 2
    case OrderEntry => 3
  }

  /** Collection order never puts an entry of a later type before one of an
      earlier type, and it keeps every source record. */
  lemma CollectedInTypeOrder(canteens: seq<CanteenCard>, menu: seq<MenuCard>,
                             notifications: Option<seq<Notifications.Notification>>,
                             orders: Option<seq<Orders.Order>>)
    ensures RankedUpTo(Collected(canteens, menu, notifications, orders), 3)
    ensures |Collected(canteens, menu, notifications, orders)| ==
      |canteens| + |menu| + (if notifications.Some? then |notifications.value| else 0)
      + (if orders.Some? then |orders.value| else 0)
  {
    var a := Map(CanteenEntryOf, canteens);
    var b := Map(MenuEntryOf, menu);
    var c := Map(NotificationEntryOf, ListOrEmpty(notifications));
    var d := Map(OrderEntryOf, ListOrEmpty(orders));
    KindsOfMapped(canteens, menu, ListOrEmpty(notifications), ListOrEmpty(orders));
    RankedExtend([], a, 0, 0);
    assert [] + a == a;
    RankedExtend(a, b, 0, 1);
    RankedExtend(a + b, c, 1, 2);
    RankedExtend(a + b + c, d, 2, 3);
    assert Collected(canteens, menu, notifications, orders) == a + b + c + d;
  }

  lemma KindsOfMapped(cs: seq<CanteenCard>, ms: seq<MenuCard>, ns: seq<Notifications.Notification>, os: seq<Orders.Order>)
    ensures forall i :: 0 <= i < |Map(CanteenEntryOf, cs)| ==> Rank(Map(CanteenEntryOf, cs)[i].kind) == 0
    ensures forall i :: 0 <= i < |Map(MenuEntryOf, ms)| ==> Rank(Map(MenuEntryOf, ms)[i].kind) == 1
    ensures forall i :: 0 <= i < |Map(NotificationEntryOf, ns)| ==> Rank(Map(NotificationEntryOf, ns)[i].kind) == 2
    ensures forall i :: 0 <= i < |Map(OrderEntryOf, os)| ==> Rank(Map(OrderEntryOf, os)[i].kind) == 3
  {
  }

  /** No entry comes before one of an earlier type, and none has a type ranked above r. */
  predicate RankedUpTo(items: seq<Entry>, r: nat)
  {
    && (forall i, j :: 0 <= i < j < |items| ==> Rank(items[i].kind) <= Rank(items[j].kind))
    && (forall i :: 0 <= i < |items| ==> Rank(items[i].kind) <= r)
  }

  /** Appending entries of rank r to entries ranked at most r keeps the ranks in order. */
  lemma RankedExtend(xs: seq<Entry>, ys: seq<Entry>, prev: nat, r: nat)
    requires prev <= r && RankedUpTo(xs, prev)
    requires forall i :: 0 <= i < |ys| ==> Rank(ys[i].kind) == r
    ensures RankedUpTo(xs + ys, r)
  {
    var zs := xs + ys;
    forall i, j | 0 <= i < j < |zs|
      ensures Rank(zs[i].kind) <= Rank(zs[j].kind)
    {
      if j < |xs| {
        assert zs[i] == xs[i] && zs[j] == xs[j];
      } else if i < |xs| {
        assert zs[i] == xs[i] && zs[j] == ys[j - |xs|];
      } else {
        assert zs[i] == ys[i - |xs|] && zs[j] == ys[j - |xs|];
      }
    }
  }

  /** An order is found under "Order #<token>", and its description names
      the item and the quantity. */
  lemma OrderEntryText(o: Orders.Order)
    ensures OrderEntryOf(o).name[..7] == "Order #" && OrderEntryOf(o).name[7..] == o.token
    ensures OrderEntryOf(o).description == o.item + " - Quantity: " + IntToString(o.quantity)
  {
  }

  // ---------------------------------------------------------------------
  // Filtering and grouping (`showSearchResults`)

  /** The composite text an entry is searched by. */
  function SearchText(e: Entry): string
  {
    e.name + " " + e.description + " " + e.itemNumber + " " + e.price + " " + e.canteen + " " + e.status
  }

  predicate Matches(e: Entry, query: string)
  {
    Contains(Lower(SearchText(e)), Lower(query))
  }

  /** `searchableItems.filter(...)`: the matching entries, in order. */
  function FilterMatches(entries: seq<Entry>, query: string): (r: seq<Entry>)
    ensures IsSubsequence(r, entries)
    ensures forall e :: e in r ==> Matches(e, query)
    ensures forall i :: 0 <= i < |entries| && Matches(entries[i], query) ==> entries[i] in r
  {
    if entries == [] then []
    else if Matches(entries[0], query) then [entries[0]] + FilterMatches(entries[1..], query)
    else FilterMatches(entries[1..], query)
  }

  /** The results hold each matching entry as often as the index does, and
      no other entry: equal entries are all kept. */
  lemma {:induction false} FilterMatchesCount(entries: seq<Entry>, query: string, e: Entry)
    ensures multiset(FilterMatches(entries, query))[e] == if Matches(e, query) then multiset(entries)[e] else 0
  {
    if entries != [] {
      FilterMatchesCount(entries[1..], query, e);
      assert entries == [entries[0]] + entries[1..];
    }
  }

  /** `results.filter(item => item.type === t)`. */
  function OfType(results: seq<Entry>, t: EntryType): seq<Entry>
  {
    if results == [] then []
    else if results[0].kind == t then [results[0]] + OfType(results[1..], t)
    else OfType(results[1..], t)
  }

  /** A group keeps the order of the results, holds only entries of its
      type, and misses none of them. */
  lemma {:induction false} OfTypeSelects(results: seq<Entry>, t: EntryType)
    ensures IsSubsequence(OfType(results, t), results)
    ensures forall e :: e in OfType(results, t) ==> e.kind == t
    ensures forall i :: 0 <= i < |results| && results[i].kind == t ==> results[i] in OfType(results, t)
  {
    if results != [] {
      OfTypeSelects(results[1..], t);
      forall i | 0 <= i < |results| && results[i].kind == t
        ensures results[i] in OfType(results, t)
      {
        if i > 0 {
          assert results[i] == results[1..][i - 1];
        }
      }
    }
  }

  /** What the results panel shows. */
  datatype SearchView =
    | Inactive                      // panel hidden
    | NoResults                     // the single "No results found" item
    | Grouped(canteens: seq<Entry>, menuItems: seq<Entry>, notifications: seq<Entry>, orders: seq<Entry>)

  function ShowSearchResults(entries: seq<Entry>, query: string): SearchView
  {
    if query == [] then Inactive
    else
      var results := FilterMatches(entries, query);
      if results == [] then NoResults
      else Grouped(OfType(results, CanteenEntry), OfType(results, MenuItemEntry),
                   OfType(results, NotificationEntry), OfType(results, OrderEntry))
  }

  /** The input handler trims the box's text before searching. */
  function OnInput(entries: seq<Entry>, input: string): SearchView
  {
    ShowSearchResults(entries, Trim(input))
  }

  /** A box holding only whitespace hides the panel instead of matching
      everything; any other text opens it. */
  lemma BlankInputInactive(entries: seq<Entry>, input: string)
    ensures OnInput(entries, input) == Inactive <==> forall i :: 0 <= i < |input| ==> IsSpace(input[i])
  {
    TrimShape(input);
  }

  /** "No results found" appears exactly when a non-empty query matches no entry. */
  lemma NoResultsExactly(entries: seq<Entry>, query: string)
    ensures ShowSearchResults(entries, query) == NoResults <==>
      query != [] && forall i :: 0 <= i < |entries| ==> !Matches(entries[i], query)
  {
    var r := FilterMatches(entries, query);
    if r != [] {
      SubsequenceMembers(r, entries);
      assert r[0] in entries;
    }
  }

  /** A group holds each entry of its type as often as the results do, and no other entry. */
  lemma {:induction false} OfTypeCount(results: seq<Entry>, t: EntryType, e: Entry)
    ensures multiset(OfType(results, t))[e] == if e.kind == t then multiset(results)[e] else 0
  {
    if results != [] {
      OfTypeCount(results[1..], t, e);
      assert results == [results[0]] + results[1..];
    }
  }

  /** The four groups split the results: together they hold each result
      exactly as often as the results do. */
  lemma GroupsPartition(results: seq<Entry>)
    ensures multiset(OfType(results, CanteenEntry) + OfType(results, MenuItemEntry)
                     + OfType(results, NotificationEntry) + OfType(results, OrderEntry)) == multiset(results)
  {
    var groups := OfType(results, CanteenEntry) + OfType(results, MenuItemEntry)
                  + OfType(results, NotificationEntry) + OfType(results, OrderEntry);
    forall e: Entry
      ensures multiset(groups)[e] == multiset(results)[e]
    {
      OfTypeCount(results, CanteenEntry, e);
      OfTypeCount(results, MenuItemEntry, e);
      OfTypeCount(results, NotificationEntry, e);
      OfTypeCount(results, OrderEntry, e);
    }
    assert multiset(groups) == multiset(results);
  }

  /** What a shown group of type `t` holds: the results of that type in
      result order, only matching entries of that type, every one of them,
      and each as often as the index holds it. */
  ghost predicate ShownGroup(g: seq<Entry>, entries: seq<Entry>, query: string, t: EntryType)
  {
    && IsSubsequence(g, FilterMatches(entries, query))
    && (forall e :: e in g ==> e.kind == t && Matches(e, query))
    && (forall i :: 0 <= i < |entries| && entries[i].kind == t && Matches(entries[i], query) ==> entries[i] in g)
    && (forall e :: multiset(g)[e] == if e.kind == t && Matches(e, query) then multiset(entries)[e] else 0)
  }

  /** The group of type `t` cut from the results is a shown group. */
  lemma GroupShown(entries: seq<Entry>, query: string, t: EntryType)
    ensures ShownGroup(OfType(FilterMatches(entries, query), t), entries, query, t)
  {
    var results := FilterMatches(entries, query);
    var g := OfType(results, t);
    OfTypeSelects(results, t);
    SubsequenceMembers(g, results);
    forall i | 0 <= i < |entries| && entries[i].kind == t && Matches(entries[i], query)
      ensures entries[i] in g
    {
      var k :| 0 <= k < |results| && results[k] == entries[i];
    }
    forall e: Entry
      ensures multiset(g)[e] == if e.kind == t && Matches(e, query) then multiset(entries)[e] else 0
    {
      OfTypeCount(results, t, e);
      FilterMatchesCount(entries, query, e);
    }
  }

  /** Each of the four shown groups holds, in result order, exactly the
      matching entries of its type. */
  lemma GroupedContents(entries: seq<Entry>, query: string)
    requires ShowSearchResults(entries, query).Grouped?
    ensures var v := ShowSearchResults(entries, query);
      && ShownGroup(v.canteens, entries, query, CanteenEntry)
      && ShownGroup(v.menuItems, entries, query, MenuItemEntry)
      && ShownGroup(v.notifications, entries, query, NotificationEntry)
      && ShownGroup(v.orders, entries, query, OrderEntry)
  {
    GroupShown(entries, query, CanteenEntry);
    GroupShown(entries, query, MenuItemEntry);
    GroupShown(entries, query, NotificationEntry);
    GroupShown(entries, query, OrderEntry);
  }

  /** The composite text joins the fields with spaces, so a query may run
      across the end of the name into the description. */
  lemma MatchAcrossFields(e: Entry, query: string)
    requires Contains(Lower(e.name + " " + e.description), Lower(query))
    ensures Matches(e, query)
  {
    var rest := " " + e.itemNumber + " " + e.price + " " + e.canteen + " " + e.status;
    assert SearchText(e) == (e.name + " " + e.description) + rest;
    LowerAppend(e.name + " " + e.description, rest);
    ContainsExtend([], Lower(e.name + " " + e.description), Lower(rest), Lower(query));
    assert [] + Lower(e.name + " " + e.description) + Lower(rest) == Lower(SearchText(e));
  }

  /** Matching ignores the case of the query. */
  lemma MatchIgnoresCase(e: Entry, query: string)
    ensures Matches(e, query) <==> Matches(e, Lower(query))
  {
    LowerIdempotent(query);
  }

  // ---------------------------------------------------------------------
  // Elapsed-time labels (`formatTime`)

  /** The label for a past instant; `CalendarDate` stands for the
      locale-formatted date used after a week. */
  datatype TimeLabel =
    | JustNow
    | MinutesAgo(minutes: int)
    | HoursAgo(hours: int)
    | Yesterday
    | DaysAgo(days: int)
    | CalendarDate(time: int)

  /** `formatTime(time)` with the clock reading `now`, both in milliseconds.
      `Math.floor` of a quotient by a positive constant is Dafny's `/`. */
  function FormatTime(now: int, time: int): TimeLabel
  {
    var minutes := (now - time) / 60000;
    var hours := minutes / 60;
    var days := hours / 24;
    if minutes < 60 then (if minutes == 0 then JustNow else MinutesAgo(minutes))
    else if hours < 24 then HoursAgo(hours)
    else if days == 1 then Yesterday
    else if days < 7 then DaysAgo(days)
    else CalendarDate(time)
  }

  /** The buckets in milliseconds of elapsed time. A time in the future
      (negative elapsed time) falls in the minutes bucket with a negative count. */
  lemma FormatTimeBuckets(now: int, time: int)
    ensures var diff := now - time; var l := FormatTime(now, time);
      && (l == JustNow <==> 0 <= diff < 60_000)
      && (l.MinutesAgo? <==> diff < 0 || 60_000 <= diff < 3_600_000)
      && (l.MinutesAgo? ==> l.minutes == diff / 60_000 && l.minutes != 0)
      && (l.HoursAgo? <==> 3_600_000 <= diff < 86_400_000)
      && (l.HoursAgo? ==> l.hours == diff / 3_600_000 && 1 <= l.hours < 24)
      && (l == Yesterday <==> 86_400_000 <= diff < 172_800_000)
      && (l.DaysAgo? <==> 172_800_000 <= diff < 604_800_000)
      && (l.DaysAgo? ==> l.days == diff / 86_400_000 && 2 <= l.days < 7)
      && (l.CalendarDate? <==> 604_800_000 <= diff)
  {
    var diff := now - time;
    var minutes := diff / 60000;
    assert minutes / 60 == diff / 3_600_000;
    assert minutes / 60 / 24 == diff / 86_400_000;
  }

  // ---------------------------------------------------------------------
  // The search box: the entry list it searches, rebuilt on page events.

  class SearchIndex {
    var searchableItems: seq<Entry>

    constructor ()
      ensures searchableItems == []
    {
      searchableItems := [];
    }

    /** One `forEach(... push ...)` pass: append the entry of every record. */
    static method PushAll<A>(items: seq<Entry>, entryOf: A -> Entry, records: seq<A>) returns (r: seq<Entry>)
      ensures r == items + Map(entryOf, records)
    {
      r := items;
      var i := 0;
      while i < |records|
        invariant 0 <= i <= |records|
        invariant r == items + Map(entryOf, records[..i])
      {
        assert records[..i + 1][..i] == records[..i];
        r := r + [entryOf(records[i])];
        i := i + 1;
      }
      assert records[..i] == records;
    }

    /** `collectSearchableItems`: push canteens, menu items, then the
        notifications and orders when present. */
    static method CollectSearchableItems(canteens: seq<CanteenCard>, menu: seq<MenuCard>,
                                         notifications: Option<seq<Notifications.Notification>>,
                                         orders: Option<seq<Orders.Order>>) returns (items: seq<Entry>)
      ensures items == Collected(canteens, menu, notifications, orders)
    {
      items := PushAll([], CanteenEntryOf, canteens);
      assert items == Map(CanteenEntryOf, canteens);
      items := PushAll(items, MenuEntryOf, menu);
      if notifications.Some? {
        items := PushAll(items, NotificationEntryOf, notifications.value);
      } else {
        assert items == items + Map(NotificationEntryOf, ListOrEmpty(notifications));
      }
      if orders.Some? {
        items := PushAll(items, OrderEntryOf, orders.value);
      } else {
        assert items == items + Map(OrderEntryOf, ListOrEmpty(orders));
      }
    }

    /** What the `notificationsUpdated` and `ordersUpdated` handlers would do:
        rebuild the index from the current sources. No script dispatches those
        events, so in the page the index is built once, at load. */
    method Refresh(canteens: seq<CanteenCard>, menu: seq<MenuCard>,
                   notifications: Option<seq<Notifications.Notification>>,
                   orders: Option<seq<Orders.Order>>)
      modifies this
      ensures searchableItems == Collected(canteens, menu, notifications, orders)
    {
      searchableItems := CollectSearchableItems(canteens, menu, notifications, orders);
    }

    /** The input handler: trim, then filter and group. */
    function Query(input: string): SearchView
      reads this
    {
      OnInput(searchableItems, input)
    }
  }
}
