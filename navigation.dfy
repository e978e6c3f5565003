/** `Navigation`: the relative time shown on each notification and the unread badge on the bell.
    Both are pure functions of their inputs; the component never changes the unread count it is
    given (the "Mark all read" button has no handler). */
module Navigation {
  import opened Wrappers
  import opened Text
  import opened TimeAgo
  import App

  /** `formatNotificationTime(date)` at the time `nowMs`: the age in whole seconds (rounded down),
      bucketed, followed by " ago". */
  function FormatNotificationTime(nowMs: int, dateMs: int): (s: string)
    ensures var diff := (nowMs - dateMs) / 1000;
      && (diff < 60 ==> s == IntToString(diff) + "s ago")
      && (60 <= diff < 3600 ==> s == IntToString(diff / 60) + "m ago")
      && (3600 <= diff < 86400 ==> s == IntToString(diff / 3600) + "h ago")
      && (86400 <= diff ==> s == IntToString(diff / 86400) + "d ago")
  {
    Render(Bucket((nowMs - dateMs) / 1000)) + " ago"
  }

  /** Reading a label back: the bucket, then " ago". */
  function ParseNotificationTime(s: string): Option<Ago> {
    if |s| >= 4 && s[|s| - 4..] == " ago" then Parse(s[..|s| - 4]) else None
  }

  /** Nothing is lost in the label: it reads back as the bucket of the age. */
  lemma NotificationTimeReadsBack(nowMs: int, dateMs: int)
    ensures ParseNotificationTime(FormatNotificationTime(nowMs, dateMs)) == Some(Bucket((nowMs - dateMs) / 1000))
  {
    var a := Bucket((nowMs - dateMs) / 1000);
    var s := Render(a) + " ago";
    assert s[|s| - 4..] == " ago";
    assert s[..|s| - 4] == Render(a);
    ParseRender(a);
  }

  /** The unread badge: shown only for a positive count, and then displaying that count. */
  function Badge(unreadNotifications: int): (b: Option<string>)
    ensures b.Some? <==> unreadNotifications > 0
  {
    if unreadNotifications > 0 then Some(IntToString(unreadNotifications)) else None
  }

  /** The badge shows the count itself: its text reads back as the count, with no sign. */
  lemma BadgeShowsCount(unreadNotifications: int)
    requires unreadNotifications > 0
    ensures var text := Badge(unreadNotifications).value;
      IsDecimal(text) && text[0] != '-' && DecimalValue(text) == unreadNotifications
  {
    IntToStringRoundTrip(unreadNotifications);
  }

  /** The navigation items, as the view names they pass to `onViewChange`. */
  const NavItems: seq<string> := ["home", "events", "teams", "trending"]

  /** Each item opens its own page: home the feed, teams the team list, events and trending the
      placeholder named after them. */
  lemma NavItemsOpenTheirViews()
    ensures App.RenderView(NavItems[0]) == App.Feed
    ensures App.RenderView(NavItems[1]) == App.Placeholder("events")
    ensures App.RenderView(NavItems[2]) == App.Teams
    ensures App.RenderView(NavItems[3]) == App.Placeholder("trending")
  {
  }

  /** The bell after `n` notifications on a fresh app: it always shows a badge, with the count
      `2 + n`. */
  method BadgeAfter(n: nat) returns (b: Option<string>)
    ensures b == Some(IntToString(2 + n))
  {
    var count := App.UnreadAfter(n);
    b := Badge(count);
  }
}
