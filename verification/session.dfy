/**
 Scheduled-session helpers (utils/sessionUtils.js): the time-driven status
 update, the status-to-style table, the status label and the relative-time
 label. Times are integer milliseconds and the current time `now` is a
 parameter.
 */
module Session {
  import opened Base
  import Text

  /**
   A session as the helpers read it. `start` and `end` are `None` when the
   field is absent or empty; `status` is `None` when absent.
   */
  datatype Session = Session(isScheduled: bool, start: Option<int>, end: Option<int>, status: Option<string>)

  /** The status a session shows when the time checks do not apply. */
  function StoredOrUnknown(session: Option<Session>): string {
    if session.Some? && Truthy(session.value.status) then session.value.status.value else "unknown"
  }

  /** The time checks apply to a present, scheduled session that has a start time. */
  predicate TimeChecked(session: Option<Session>) {
    session.Some? && session.value.isScheduled && session.value.start.Some?
  }

  predicate StartsActive(status: Option<string>) {
    status == Some("accepted") || status == Some("upcoming")
  }

  predicate StartsOpen(status: Option<string>) {
    StartsActive(status) || status == Some("active")
  }

  /** The clock has reached the start and not yet the end; an absent end compares false. */
  predicate InWindow(s: Session, now: int) {
    s.start.Some? && now >= s.start.value && s.end.Some? && now < s.end.value
  }

  predicate PastEnd(s: Session, now: int) {
    s.end.Some? && now >= s.end.value
  }

  /**
   `checkSessionTimeStatus`: an accepted or upcoming session inside its window
   becomes "active", an accepted, upcoming or active one past its end becomes
   "completed", and every other session keeps its status (`None` when a
   time-checked session has none).
   */
  function CheckSessionTimeStatus(session: Option<Session>, now: int): (r: Option<string>)
    ensures !TimeChecked(session) ==> r == Some(StoredOrUnknown(session))
    ensures TimeChecked(session) && StartsActive(session.value.status) && InWindow(session.value, now) ==>
              r == Some("active")
    ensures TimeChecked(session) && StartsOpen(session.value.status) && PastEnd(session.value, now) ==>
              r == Some("completed")
    ensures TimeChecked(session) ==>
              r == Some("active") || r == Some("completed") || r == session.value.status
    ensures TimeChecked(session) && r != session.value.status ==> StartsOpen(session.value.status)
    ensures TimeChecked(session) &&
            !(StartsActive(session.value.status) && InWindow(session.value, now)) &&
            !(StartsOpen(session.value.status) && PastEnd(session.value, now)) ==>
              r == session.value.status
  {
    if !TimeChecked(session) then Some(StoredOrUnknown(session))
    else
      var s := session.value;
      if StartsActive(s.status) && InWindow(s, now) then Some("active")
      else if StartsOpen(s.status) && PastEnd(s, now) then Some("completed")
      else s.status
  }

  /** The session with its status replaced. */
  function WithStatus(session: Option<Session>, status: Option<string>): Option<Session> {
    match session
    case Some(s) => Some(s.(status := status))
    case None => None
  }

  /** Storing the computed status and checking again at the same time changes nothing. */
  lemma CheckSessionTimeStatusIsStable(session: Option<Session>, now: int)
    requires session.Some?
    ensures var r := CheckSessionTimeStatus(session, now);
            CheckSessionTimeStatus(WithStatus(session, r), now) == r
  {
  }

  /** A session found completed stays completed at every later time. */
  lemma CompletedIsPermanent(session: Option<Session>, now: int, later: int)
    requires CheckSessionTimeStatus(session, now) == Some("completed")
    requires later >= now
    ensures CheckSessionTimeStatus(session, later) == Some("completed")
  {
  }

  // ---------------------------------------------------------------------------
  // Styling

  const MutedStyle: string := "bg-gray-200 text-gray-600 dark:bg-gray-600 dark:text-gray-300"
  const GreenStyle: string := "bg-green-100 text-green-700 dark:bg-green-900/70 dark:text-green-300"
  const BlueStyle: string := "bg-blue-100 text-blue-700 dark:bg-blue-900/70 dark:text-blue-300"
  const YellowStyle: string := "bg-yellow-100 text-yellow-700 dark:bg-yellow-900/70 dark:text-yellow-300"
  const PurpleStyle: string := "bg-purple-100 text-purple-700 dark:bg-purple-900/70 dark:text-purple-300"
  const DefaultStyle: string := "bg-red-100 text-red-700 dark:bg-red-900/70 dark:text-red-300"

  /** The statuses with a style of their own. */
  const StatusStyles: map<string, string> := map[
    "completed" := MutedStyle,
    "expired" := MutedStyle,
    "rejected" := MutedStyle,
    "cancelled" := MutedStyle,
    "cancelled_by_expert" := MutedStyle,
    "cancelled_by_user" := MutedStyle,
    "accepted" := GreenStyle,
    "active" := GreenStyle,
    "upcoming" := BlueStyle,
    "pending" := YellowStyle,
    "reschedule_proposed" := PurpleStyle
  ]

  /** `getStatusStyling`: the listed statuses get their class, any other string the default one. */
  function GetStatusStyling(status: string): (r: string)
    ensures status in StatusStyles ==> r == StatusStyles[status] && r != DefaultStyle
    ensures status !in StatusStyles ==> r == DefaultStyle
    ensures r in {MutedStyle, GreenStyle, BlueStyle, YellowStyle, PurpleStyle, DefaultStyle}
  {
    if status in StatusStyles && StatusStyles[status] != "" then StatusStyles[status] else DefaultStyle
  }

  /** Exactly eleven statuses are styled, and the default style is not one of theirs. */
  lemma StyledStatuses()
    ensures StatusStyles.Keys == {"completed", "expired", "rejected", "cancelled", "cancelled_by_expert",
                                  "cancelled_by_user", "accepted", "active", "upcoming", "pending",
                                  "reschedule_proposed"}
    ensures DefaultStyle !in StatusStyles.Values
  {
  }

  // ---------------------------------------------------------------------------
  // Labels

  /**
   The default label: the first character upper-cased and the first `_` after
   it replaced by a space; every other character is kept.
   */
  function DefaultLabel(status: string): (r: string)
    ensures |r| == |status|
    ensures status != [] ==> r[0] == Text.UpperChar(status[0])
    ensures forall i :: 1 <= i < |status| && r[i] != status[i] ==>
              status[i] == '_' && r[i] == ' ' && '_' !in status[1..i]
    ensures forall i :: 1 <= i < |status| && status[i] == '_' && '_' !in status[1..i] ==> r[i] == ' '
  {
    if status == [] then []
    else
      var tail := status[1..];
      Text.ReplaceFirstChar(tail, '_', ' ');
      assert forall i :: 1 <= i <= |status| ==> status[1..i] == tail[..i - 1];
      [Text.UpperChar(status[0])] + Text.ReplaceFirst(tail, "_", " ")
  }

  /**
   `getStatusText`, checked in this order: an accepted scheduled session that
   starts after `now` reads "Upcoming", a pending scheduled one "Pending
   Review", a proposed reschedule "Reschedule Proposed", and any other status
   its default label. The source reads `status.charAt` unguarded, so a session
   without a status is outside its domain.
   */
  function GetStatusText(s: Session, now: int): (r: string)
    requires s.status.Some?
    ensures s.status == Some("accepted") && s.isScheduled && s.start.Some? && s.start.value > now ==>
              r == "Upcoming"
    ensures s.status == Some("pending") && s.isScheduled ==> r == "Pending Review"
    ensures s.status == Some("reschedule_proposed") ==> r == "Reschedule Proposed"
    ensures (&& !(s.status == Some("accepted") && s.isScheduled && s.start.Some? && s.start.value > now)
             && !(s.status == Some("pending") && s.isScheduled)
             && s.status != Some("reschedule_proposed"))
            ==> r == DefaultLabel(s.status.value)
  {
    var status := s.status.value;
    if status == "accepted" && s.isScheduled && s.start.Some? && s.start.value > now then "Upcoming"
    else if status == "pending" && s.isScheduled then "Pending Review"
    else if status == "reschedule_proposed" then "Reschedule Proposed"
    else DefaultLabel(status)
  }

  // ---------------------------------------------------------------------------
  // Relative time

  /** A relative-time label, or a hand-off to calendar formatting for dates a day or more old. */
  datatype TimeLabel = Label(text: string) | Calendar(dateMs: int)

  const MinuteMs: int := 60 * 1000
  const HourMs: int := 60 * MinuteMs
  const DayMs: int := 24 * HourMs

  /**
   `formatDisplayTime` up to one day: no date reads "N/A", less than a minute
   (a future date included) "Just now", then whole minutes and whole hours.
   */
  function FormatDisplayTime(date: Option<int>, now: int): (r: TimeLabel)
    ensures date.None? ==> r == Label("N/A")
    ensures date.Some? && now - date.value < MinuteMs ==> r == Label("Just now")
    ensures date.Some? && MinuteMs <= now - date.value < HourMs ==>
              exists m: nat :: 1 <= m < 60 && m * MinuteMs <= now - date.value < (m + 1) * MinuteMs &&
                               r == Label(Text.NatToString(m) + "m ago")
    ensures date.Some? && HourMs <= now - date.value < DayMs ==>
              exists h: nat :: 1 <= h < 24 && h * HourMs <= now - date.value < (h + 1) * HourMs &&
                               r == Label(Text.NatToString(h) + "h ago")
    ensures date.Some? && now - date.value >= DayMs ==> r == Calendar(date.value)
  {
    if date.None? then Label("N/A")
    else
      var elapsed := now - date.value;
      if elapsed < MinuteMs then Label("Just now")
      else if elapsed < HourMs then
        var m := elapsed / MinuteMs;
        assert m * MinuteMs <= elapsed < (m + 1) * MinuteMs;
        Label(Text.NatToString(m) + "m ago")
      else if elapsed < DayMs then
        var h := elapsed / HourMs;
        assert h * HourMs <= elapsed < (h + 1) * HourMs;
        Label(Text.NatToString(h) + "h ago")
      else Calendar(date.value)
  }
}
