/** Notifications (notification.js): a most-recent-first list capped at
    100 entries with an unread counter, plus the HTML escaper and the icon
    lookup used when they are shown. */
module Notifications {
  import opened Wrappers
  import opened Text

  const MAX_NOTIFICATIONS: int := 100

  datatype Kind = Success | Error | Warning | Info

  /** A notification; `id` and `time` both come from the clock at creation. */
  datatype Notification = Notification(id: int, title: string, message: string, kind: Kind, time: int, read: bool)

  datatype NotificationError = InvalidTitle | InvalidMessage | InvalidType

  /** The manager's whole state: the list, newest first, and the counter
      shown on the badge. */
  datatype Inbox = Inbox(items: seq<Notification>, unread: nat)

  // ---------------------------------------------------------------------
  // Types, validation and icons

  function KindName(k: Kind): string
  {
    match k
    case Success => "success"
    case Error => "error"
    case Warning => "warning"
    case Info => "info"
  }

  function ParseKind(name: string): (r: Option<Kind>)
    ensures r.Some? ==> KindName(r.value) == name
    ensures r.None? ==> forall k: Kind :: KindName(k) != name
  {
    if name == "success" then Some(Kind.Success)
    else if name == "error" then Some(Error)
    else if name == "warning" then Some(Warning)
    else if name == "info" then Some(Info)
    else None
  }

  /** `validateNotification`: title, then message, then type. */
  function ValidateNotification(title: string, message: string, kind: string): (r: Result<Kind, NotificationError>)
    ensures r.Success? <==> title != [] && message != [] && ParseKind(kind).Some?
    ensures r.Success? ==> KindName(r.value) == kind
  {
    if title == [] then Failure(InvalidTitle)
    else if message == [] then Failure(InvalidMessage)
    else match ParseKind(kind)
      case None => Failure(InvalidType)
      case Some(k) => Wrappers.Success(k)
  }

  function KindIcon(k: Kind): string
  {
    match k
    case Success => "fa-check-circle"
    case Error => "fa-exclamation-circle"
    case Warning => "fa-exclamation-triangle"
    case Info => "fa-info-circle"
  }

  /** `getIconForType`: the type's icon, or the info icon for anything else. */
  function IconForType(kind: string): (r: string)
    ensures ParseKind(kind).None? ==> r == KindIcon(Info)
    ensures forall k: Kind :: kind == KindName(k) ==> r == KindIcon(k)
  {
    match ParseKind(kind)
    case Some(k) => KindIcon(k)
    case None => KindIcon(Info)
  }

  /** The four types have four different icons. */
  lemma KindIconsDistinct(a: Kind, b: Kind)
    requires a != b
    ensures KindIcon(a) != KindIcon(b)
  {
    assert KindIcon(a)[3] != KindIcon(b)[3] || KindIcon(a)[|KindIcon(a)| - 1] != KindIcon(b)[|KindIcon(b)| - 1]
      || |KindIcon(a)| != |KindIcon(b)|;
  }

  // ---------------------------------------------------------------------
  // HTML escaping (`escapeHtml`): five global replacements, `&` first

  function EscapeHtml(s: string): string
  {
    ReplaceChar(ReplaceChar(ReplaceChar(ReplaceChar(ReplaceChar(
      s, '&', "&amp;"), '<', "&lt;"), '>', "&gt;"), '"', "&quot;"), '\'', "&#039;")
  }

  /** The entity each character stands for in escaped text. */
  function EscapeChar(c: char): string
  {
    if c == '&' then "&amp;"
    else if c == '<' then "&lt;"
    else if c == '>' then "&gt;"
    else if c == '"' then "&quot;"
    else if c == '\'' then "&#039;"
    else [c]
  }

  /** The escaper as a one-pass character map. */
  function EscapeEach(s: string): string
  {
    if s == [] then [] else EscapeChar(s[0]) + EscapeEach(s[1..])
  }

  lemma EscapeHtmlAppend(a: string, b: string)
    ensures EscapeHtml(a + b) == EscapeHtml(a) + EscapeHtml(b)
  {
    var a1, b1 := ReplaceChar(a, '&', "&amp;"), ReplaceChar(b, '&', "&amp;");
    ReplaceCharAppend(a, b, '&', "&amp;");
    var a2, b2 := ReplaceChar(a1, '<', "&lt;"), ReplaceChar(b1, '<', "&lt;");
    ReplaceCharAppend(a1, b1, '<', "&lt;");
    var a3, b3 := ReplaceChar(a2, '>', "&gt;"), ReplaceChar(b2, '>', "&gt;");
    ReplaceCharAppend(a2, b2, '>', "&gt;");
    var a4, b4 := ReplaceChar(a3, '"', "&quot;"), ReplaceChar(b3, '"', "&quot;");
    ReplaceCharAppend(a3, b3, '"', "&quot;");
    ReplaceCharAppend(a4, b4, '\'', "&#039;");
  }

  /** On one character the five passes give exactly that character's
      entity: the entities inserted by a pass contain none of the
      characters later passes replace. */
  lemma EscapeHtmlSingle(c: char)
    ensures EscapeHtml([c]) == EscapeChar(c)
  {
    ReplaceCharSingle(c, '&', "&amp;");
    if c == '&' {
      EntityUntouched("&amp;");
    } else {
      ReplaceCharSingle(c, '<', "&lt;");
      if c == '<' {
        EntityUntouchedFrom3("&lt;");
      } else {
        ReplaceCharSingle(c, '>', "&gt;");
        if c == '>' {
          EntityUntouchedFrom4("&gt;");
        } else {
          ReplaceCharSingle(c, '"', "&quot;");
          ReplaceCharSingle(c, '\'', "&#039;");
          if c == '"' {
            ReplaceCharAbsent("&quot;", '\'', "&#039;");
          }
        }
      }
    }
  }

  /** An entity contains none of the characters the later passes replace. */
  lemma EntityUntouched(e: string)
    requires '<' !in e && '>' !in e && '"' !in e && '\'' !in e
    ensures ReplaceChar(ReplaceChar(ReplaceChar(ReplaceChar(e, '<', "&lt;"), '>', "&gt;"), '"', "&quot;"), '\'', "&#039;") == e
  {
    ReplaceCharAbsent(e, '<', "&lt;");
    EntityUntouchedFrom3(e);
  }

  lemma EntityUntouchedFrom3(e: string)
    requires '>' !in e && '"' !in e && '\'' !in e
    ensures ReplaceChar(ReplaceChar(ReplaceChar(e, '>', "&gt;"), '"', "&quot;"), '\'', "&#039;") == e
  {
    ReplaceCharAbsent(e, '>', "&gt;");
    EntityUntouchedFrom4(e);
  }

  lemma EntityUntouchedFrom4(e: string)
    requires '"' !in e && '\'' !in e
    ensures ReplaceChar(ReplaceChar(e, '"', "&quot;"), '\'', "&#039;") == e
  {
    ReplaceCharAbsent(e, '"', "&quot;");
    ReplaceCharAbsent(e, '\'', "&#039;");
  }

  /** The chained replacements equal the one-pass character map, so no
      entity is escaped a second time. */
  lemma {:induction false} EscapeHtmlIsCharwise(s: string)
    ensures EscapeHtml(s) == EscapeEach(s)
  {
    if s != [] {
      assert s == [s[0]] + s[1..];
      EscapeHtmlAppend([s[0]], s[1..]);
      EscapeHtmlSingle(s[0]);
      EscapeHtmlIsCharwise(s[1..]);
    } else {
      assert EscapeHtml(s) == [];
    }
  }

  /** Escaped text contains none of `<`, `>`, `"` and `'`. */
  lemma {:induction false} EscapedIsInert(s: string)
    ensures forall c :: c in EscapeHtml(s) ==> c != '<' && c != '>' && c != '"' && c != '\''
  {
    EscapeHtmlIsCharwise(s);
    EscapeEachInert(s);
  }

  lemma {:induction false} EscapeEachInert(s: string)
    ensures forall c :: c in EscapeEach(s) ==> c != '<' && c != '>' && c != '"' && c != '\''
  {
    if s != [] {
      EscapeEachInert(s[1..]);
      EscapeCharInert(s[0]);
      var e, rest := EscapeChar(s[0]), EscapeEach(s[1..]);
      assert EscapeEach(s) == e + rest;
      assert forall c :: c in e + rest ==> c in e || c in rest;
    }
  }

  lemma EscapeCharInert(x: char)
    ensures forall c :: c in EscapeChar(x) ==> c != '<' && c != '>' && c != '"' && c != '\''
  {
  }

  /** Decoding the five entities (what the browser does when it renders). */
  function Unescape(s: string): string
    decreases |s|
  {
    if s == [] then []
    else if |s| >= 5 && s[..5] == "&amp;" then "&" + Unescape(s[5..])
    else if |s| >= 4 && s[..4] == "&lt;" then "<" + Unescape(s[4..])
    else if |s| >= 4 && s[..4] == "&gt;" then ">" + Unescape(s[4..])
    else if |s| >= 6 && s[..6] == "&quot;" then "\"" + Unescape(s[6..])
    else if |s| >= 6 && s[..6] == "&#039;" then "'" + Unescape(s[6..])
    else [s[0]] + Unescape(s[1..])
  }

  lemma UnescapeStep(c: char, rest: string)
    ensures Unescape(EscapeChar(c) + rest) == [c] + Unescape(rest)
  {
    if c == '&' {
      UnescapeEntity("&amp;", rest);
    } else if c == '<' {
      UnescapeEntity("&lt;", rest);
    } else if c == '>' {
      UnescapeEntity("&gt;", rest);
    } else if c == '"' {
      UnescapeEntity("&quot;", rest);
    } else if c == '\'' {
      UnescapeEntity("&#039;", rest);
    } else {
      UnescapePlain(c, rest);
    }
  }

  /** Each entity decodes to its character: its second character rules out
      the entities tried before it. */
  lemma UnescapeEntity(entity: string, rest: string)
    requires entity in ["&amp;", "&lt;", "&gt;", "&quot;", "&#039;"]
    ensures entity == "&amp;" ==> Unescape(entity + rest) == "&" + Unescape(rest)
    ensures entity == "&lt;" ==> Unescape(entity + rest) == "<" + Unescape(rest)
    ensures entity == "&gt;" ==> Unescape(entity + rest) == ">" + Unescape(rest)
    ensures entity == "&quot;" ==> Unescape(entity + rest) == "\"" + Unescape(rest)
    ensures entity == "&#039;" ==> Unescape(entity + rest) == "'" + Unescape(rest)
  {
    var s := entity + rest;
    var k := |entity|;
    assert s[..k] == entity && s[k..] == rest;
    assert s[1] == entity[1];
    assert |s| >= 4 ==> s[..4][1] == entity[1];
    assert |s| >= 5 ==> s[..5][1] == entity[1];
  }

  lemma UnescapePlain(c: char, rest: string)
    requires c != '&'
    ensures Unescape([c] + rest) == [c] + Unescape(rest)
  {
    var s := [c] + rest;
    assert s[0] == c && s[1..] == rest;
    assert |s| >= 4 ==> s[..4][0] == c;
    assert |s| >= 5 ==> s[..5][0] == c;
    assert |s| >= 6 ==> s[..6][0] == c;
  }

  /** Rendering escaped text shows the original text: escaping loses nothing. */
  lemma {:induction false} EscapeRoundTrip(s: string)
    ensures Unescape(EscapeHtml(s)) == s
  {
    EscapeHtmlIsCharwise(s);
    EscapeEachRoundTrip(s);
  }

  lemma {:induction false} EscapeEachRoundTrip(s: string)
    ensures Unescape(EscapeEach(s)) == s
  {
    if s != [] {
      UnescapeStep(s[0], EscapeEach(s[1..]));
      EscapeEachRoundTrip(s[1..]);
    }
  }

  // ---------------------------------------------------------------------
  // The inbox after each operation

  /** `notifications.findIndex(n => n.id === id)`, as an option. */
  function FindById(items: seq<Notification>, id: int): (r: Option<nat>)
    ensures r.Some? ==> r.value < |items| && items[r.value].id == id
    ensures r.Some? ==> forall j :: 0 <= j < r.value ==> items[j].id != id
    ensures r.None? <==> forall j :: 0 <= j < |items| ==> items[j].id != id
  {
    if items == [] then None
    else if items[0].id == id then Some(0)
    else match FindById(items[1..], id)
      case None => None
      case Some(i) => Some(i + 1)
  }

  /** `Math.max(0, unreadCount - 1)`. */
  function Decrement(count: nat): nat
  {
    if count > 0 then count - 1 else 0
  }

  /** `addNotification` after validation: drop the oldest entry when at 100
      or more, put the new one first, count it as unread. */
  function Add(inbox: Inbox, n: Notification): Inbox
  {
    var kept := if |inbox.items| >= MAX_NOTIFICATIONS then inbox.items[..|inbox.items| - 1] else inbox.items;
    Inbox([n] + kept, inbox.unread + 1)
  }

  /** `markAsRead`: the first entry with the id, if still unread. */
  function MarkRead(inbox: Inbox, id: int): Inbox
  {
    match FindById(inbox.items, id)
    case None => inbox
    case Some(i) =>
      if inbox.items[i].read then inbox
      else Inbox(inbox.items[i := inbox.items[i].(read := true)], Decrement(inbox.unread))
  }

  /** `deleteNotification`: remove the first entry with the id. */
  function Delete(inbox: Inbox, id: int): Inbox
  {
    match FindById(inbox.items, id)
    case None => inbox
    case Some(i) =>
      Inbox(inbox.items[..i] + inbox.items[i + 1..],
            if inbox.items[i].read then inbox.unread else Decrement(inbox.unread))
  }

  /** `clearAllNotifications`. */
  function ClearAll(inbox: Inbox): Inbox
  {
    if inbox.items == [] then inbox else Inbox([], 0)
  }

  /** The number of entries still unread (`filter(n => !n.read).length`). */
  function CountUnread(items: seq<Notification>): (r: nat)
    ensures r <= |items|
  {
    if items == [] then 0 else (if items[0].read then 0 else 1) + CountUnread(items[1..])
  }

  /** A loaded list, with the counter recomputed from it. */
  function Loaded(items: seq<Notification>): Inbox
  {
    Inbox(items, CountUnread(items))
  }

  /** The counter equals the number of unread entries. */
  predicate Exact(inbox: Inbox)
  {
    inbox.unread == CountUnread(inbox.items)
  }

  /** The counter is at least the number of unread entries. */
  predicate Covers(inbox: Inbox)
  {
    inbox.unread >= CountUnread(inbox.items)
  }

  // ---------------------------------------------------------------------
  // Counting lemmas

  lemma {:induction false} CountUnreadAppend(a: seq<Notification>, b: seq<Notification>)
    ensures CountUnread(a + b) == CountUnread(a) + CountUnread(b)
  {
    if a != [] {
      assert (a + b)[1..] == a[1..] + b;
      CountUnreadAppend(a[1..], b);
    } else {
      assert a + b == b;
    }
  }

  lemma {:induction false} CountUnreadSplit(items: seq<Notification>, i: nat)
    requires i < |items|
    ensures CountUnread(items) == CountUnread(items[..i]) + (if items[i].read then 0 else 1) + CountUnread(items[i + 1..])
  {
    if i == 0 {
      assert items[..0] == [];
    } else {
      var tail := items[1..];
      CountUnreadSplit(tail, i - 1);
      assert tail[..i - 1] == items[..i][1..];
      assert tail[i - 1] == items[i] && tail[i..] == items[i + 1..];
    }
  }

  // ---------------------------------------------------------------------
  // Properties

  /** A successful add puts the new entry first, keeps the survivors in
      order, stays within 100 entries if the list was, and adds exactly one
      to the counter, also when the dropped entry was unread. */
  lemma AddShape(inbox: Inbox, n: Notification)
    ensures var r := Add(inbox, n);
      && r.items[0] == n
      && r.items[1..] == inbox.items[..|r.items| - 1]
      && r.unread == inbox.unread + 1
      && (|inbox.items| < MAX_NOTIFICATIONS ==> |r.items| == |inbox.items| + 1)
      && (|inbox.items| >= MAX_NOTIFICATIONS ==> |r.items| == |inbox.items|)
      && (|inbox.items| <= MAX_NOTIFICATIONS ==> |r.items| <= MAX_NOTIFICATIONS)
  {
  }

  /** Adding an unread entry keeps the counter exact unless the dropped
      oldest entry was unread; then the counter overstates by one. */
  lemma AddCounter(inbox: Inbox, n: Notification)
    requires !n.read
    ensures var r := Add(inbox, n);
      var evictedUnread := |inbox.items| >= MAX_NOTIFICATIONS && !inbox.items[|inbox.items| - 1].read;
      r.unread - CountUnread(r.items) == inbox.unread - CountUnread(inbox.items) + (if evictedUnread then 1 else 0)
  {
    var items := inbox.items;
    var r := Add(inbox, n);
    assert r.items[1..] == (if |items| >= MAX_NOTIFICATIONS then items[..|items| - 1] else items);
    if |items| >= MAX_NOTIFICATIONS {
      CountUnreadSplit(items, |items| - 1);
      assert items[|items|..] == [];
    }
  }

  /** `markAsRead` on an absent id or a read entry changes nothing;
      otherwise only the first entry with the id becomes read and the
      counter drops by one, never below 0. */
  lemma MarkReadShape(inbox: Inbox, id: int)
    ensures FindById(inbox.items, id).None? ==> MarkRead(inbox, id) == inbox
    ensures FindById(inbox.items, id).Some? ==>
      var i := FindById(inbox.items, id).value;
      var r := MarkRead(inbox, id);
      && (inbox.items[i].read ==> r == inbox)
      && (!inbox.items[i].read ==>
            r.items == inbox.items[i := inbox.items[i].(read := true)] && r.unread == Decrement(inbox.unread))
  {
  }

  /** Marking the same id read twice is the same as marking it once. */
  lemma MarkReadIdempotent(inbox: Inbox, id: int)
    ensures MarkRead(MarkRead(inbox, id), id) == MarkRead(inbox, id)
  {
    match FindById(inbox.items, id)
    case None =>
    case Some(i) =>
      var once := MarkRead(inbox, id);
      if !inbox.items[i].read {
        assert forall j :: 0 <= j < |once.items| ==> once.items[j].id == inbox.items[j].id;
        assert FindById(once.items, id) == Some(i);
      }
  }

  /** `deleteNotification` removes just the first entry with the id, keeps
      the rest in order, and lowers the counter only for an unread entry. */
  lemma DeleteShape(inbox: Inbox, id: int)
    ensures FindById(inbox.items, id).None? ==> Delete(inbox, id) == inbox
    ensures FindById(inbox.items, id).Some? ==>
      var i := FindById(inbox.items, id).value;
      var r := Delete(inbox, id);
      && |r.items| == |inbox.items| - 1
      && (forall j :: 0 <= j < i ==> r.items[j] == inbox.items[j])
      && (forall j :: i <= j < |r.items| ==> r.items[j] == inbox.items[j + 1])
      && r.unread == if inbox.items[i].read then inbox.unread else Decrement(inbox.unread)
  {
  }

  /** `clearAllNotifications` leaves an empty list and a zero counter, and
      on an empty list changes nothing. */
  lemma ClearAllShape(inbox: Inbox)
    ensures inbox.items == [] ==> ClearAll(inbox) == inbox
    ensures ClearAll(inbox).items == [] && (inbox.items != [] ==> ClearAll(inbox).unread == 0)
  {
  }

  /** Mark-read, delete and clear-all keep an exact counter exact; a load
      makes it exact. */
  lemma ExactPreserved(inbox: Inbox, id: int, items: seq<Notification>)
    ensures Exact(Loaded(items))
    ensures Exact(inbox) ==> Exact(MarkRead(inbox, id)) && Exact(Delete(inbox, id)) && Exact(ClearAll(inbox))
  {
    if Exact(inbox) {
      match FindById(inbox.items, id)
      case None =>
      case Some(i) =>
        var xs := inbox.items;
        CountUnreadSplit(xs, i);
        var ys := xs[i := xs[i].(read := true)];
        CountUnreadSplit(ys, i);
        assert ys[..i] == xs[..i] && ys[i + 1..] == xs[i + 1..];
        CountUnreadAppend(xs[..i], xs[i + 1..]);
    }
  }

  /** Every operation keeps the counter at or above the true number of
      unread entries, so the badge never under-reports. */
  lemma CoversPreserved(inbox: Inbox, n: Notification, id: int, items: seq<Notification>)
    requires Covers(inbox)
    requires !n.read
    ensures Covers(Add(inbox, n)) && Covers(MarkRead(inbox, id)) && Covers(Delete(inbox, id))
    ensures Covers(ClearAll(inbox)) && Covers(Loaded(items))
  {
    AddCounter(inbox, n);
    match FindById(inbox.items, id)
    case None =>
    case Some(i) =>
      var xs := inbox.items;
      CountUnreadSplit(xs, i);
      var ys := xs[i := xs[i].(read := true)];
      CountUnreadSplit(ys, i);
      assert ys[..i] == xs[..i] && ys[i + 1..] == xs[i + 1..];
      CountUnreadAppend(xs[..i], xs[i + 1..]);
  }

  /** The drift the source leaves in: with an exact counter and a full list
      whose oldest entry is unread, one more add makes the counter one
      higher than the number of unread entries. */
  lemma EvictionDrift(inbox: Inbox, n: Notification)
    requires Exact(inbox) && !n.read
    requires |inbox.items| >= MAX_NOTIFICATIONS && !inbox.items[|inbox.items| - 1].read
    ensures Add(inbox, n).unread == CountUnread(Add(inbox, n).items) + 1
  {
    AddCounter(inbox, n);
  }

  // ---------------------------------------------------------------------
  // The notification manager: the page-global `notifications` array and
  // `unreadCount`. Saving, the badge, the list markup and toasts are left out.

  class NotificationCenter {
    var notifications: seq<Notification>
    var unreadCount: nat

    constructor ()
      ensures notifications == [] && unreadCount == 0
    {
      notifications := [];
      unreadCount := 0;
    }

    function State(): Inbox
      reads this
    {
      Inbox(notifications, unreadCount)
    }

    /** `addNotification(title, message, type)` at clock reading `now`. */
    method AddNotification(title: string, message: string, kind: string, now: int) returns (r: Option<NotificationError>)
      modifies this
      ensures ValidateNotification(title, message, kind).Failure? ==>
        r == Some(ValidateNotification(title, message, kind).error) && State() == old(State())
      ensures ValidateNotification(title, message, kind).Success? ==>
        && r == None
        && State() == Add(old(State()), Notification(now, title, message, ValidateNotification(title, message, kind).value, now, false))
      ensures old(|notifications|) <= MAX_NOTIFICATIONS ==> |notifications| <= MAX_NOTIFICATIONS
      ensures old(Covers(State())) ==> Covers(State())
    {
      var checked := ValidateNotification(title, message, kind);
      if checked.Failure? {
        return Some(checked.error);
      }
      var n := Notification(now, title, message, checked.value, now, false);
      if Covers(State()) {
        CoversPreserved(State(), n, 0, []);
      }
      if |notifications| >= MAX_NOTIFICATIONS {
        notifications := notifications[..|notifications| - 1];
      }
      notifications := [n] + notifications;
      unreadCount := unreadCount + 1;
      r := None;
    }

    /** `markAsRead(id)`; also the effect of opening a notification's details. */
    method MarkAsRead(id: int)
      modifies this
      ensures State() == MarkRead(old(State()), id)
      ensures old(Exact(State())) ==> Exact(State())
      ensures old(Covers(State())) ==> Covers(State())
    {
      ExactPreserved(State(), id, []);
      if Covers(State()) {
        CoversPreserved(State(), Notification(0, "", "", Info, 0, false), id, []);
      }
      var found := FindById(notifications, id);
      if found.Some? && !notifications[found.value].read {
        var i := found.value;
        notifications := notifications[i := notifications[i].(read := true)];
        unreadCount := if unreadCount > 0 then unreadCount - 1 else 0;
      }
    }

    /** `deleteNotification(id)`. */
    method DeleteNotification(id: int)
      modifies this
      ensures State() == Delete(old(State()), id)
      ensures old(Exact(State())) ==> Exact(State())
      ensures old(Covers(State())) ==> Covers(State())
    {
      ExactPreserved(State(), id, []);
      if Covers(State()) {
        CoversPreserved(State(), Notification(0, "", "", Info, 0, false), id, []);
      }
      var found := FindById(notifications, id);
      if found.Some? {
        var i := found.value;
        if !notifications[i].read {
          unreadCount := if unreadCount > 0 then unreadCount - 1 else 0;
        }
        notifications := notifications[..i] + notifications[i + 1..];
      }
    }

    /** `clearAllNotifications`; reports whether there was anything to clear. */
    method ClearAllNotifications() returns (cleared: bool)
      modifies this
      ensures cleared <==> old(notifications) != []
      ensures State() == ClearAll(old(State()))
    {
      if |notifications| == 0 {
        return false;
      }
      notifications := [];
      unreadCount := 0;
      cleared := true;
    }

    /** `loadNotificationsFromLocalStorage`: a stored list replaces the
        state and the counter is recounted; unparsable text resets both;
        a missing entry or a non-list value leaves the state alone. */
    method LoadNotifications(saved: Stored<seq<Notification>>)
      modifies this
      ensures saved.Present? ==> State() == Loaded(saved.items) && Exact(State())
      ensures saved.Malformed? ==> State() == Inbox([], 0)
      ensures (saved.Absent? || saved.NotAList?) ==> State() == old(State())
    {
      match saved
      case Present(items) =>
        notifications := items;
        unreadCount := CountUnread(items);
      case Malformed =>
        notifications := [];
        unreadCount := 0;
      case Absent =>
      case NotAList =>
    }
  }
}
