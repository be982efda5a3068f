/** The two scheduled actions: the daily summary of today's tickets and the
    routine report of recently created ones. Each is a function from its
    inputs to what it did: the JQL it sent and the notification it raised. */
module Triggers {
  import opened Wrappers
  import opened Helper
  import opened JiraClient

  /** A desktop notification as handed to `Toast.notify`: title, body,
      click target and sound flag, each exactly as read from the config. */
  datatype Notification = Notification(title: string, body: string, url: Option<string>, sound: Option<bool>)

  /** One action's effect: the searches it issued, the notification it sent,
      and whether an exception escaped from it. */
  datatype ActionOutcome = ActionOutcome(queries: seq<string>, notification: Option<Notification>, raised: bool)

  const DailyTitle := "Jira Today Notification"
  const RoutineTitle := "Jira New Ticket(S)"

  /** `Triggers.__init__`: the configuration and the client built from it. */
  datatype Triggers = Triggers(config: Config, jira: Jira)

  function NewTriggers(config: Config): Triggers
  {
    Triggers(config, NewJira(config))
  }

  /** The body for a non-empty ticket list: the newline join on Windows 10
      and 11, otherwise the link form with `jira_api_url` as the base. */
  function NotificationBody(t: Triggers, isWindows: bool, tickets: seq<string>): string
  {
    if isWindows then PrepareTicketsWithLinkWindows(tickets)
    else LinkBody(Some(tickets), t.config.jiraApiUrl)
  }

  /** The notification an action sends for its tickets, if any. */
  function Announce(t: Triggers, isWindows: bool, title: string, tickets: seq<string>): (r: Option<Notification>)
    ensures r.Some? <==> tickets != []
    ensures r.Some? ==> (r.value.title == title && r.value.url == t.config.jiraApiUrl
                         && r.value.sound == t.config.toastSound
                         && r.value.body == NotificationBody(t, isWindows, tickets))
  {
    if tickets != [] then
      Some(Notification(title, NotificationBody(t, isWindows, tickets), t.config.jiraApiUrl, t.config.toastSound))
    else None
  }

  /** `jira_daily_toast(repeated)`: only when the clock shows the configured
      `HH:MM` and `repeated` is false does it search today's tickets; it then
      notifies iff the search gave any. A failed search counts as none. */
  function JiraDailyToast(t: Triggers, isWindows: bool, repeated: bool, now: ClockTime,
                          today: string, search: SearchResult): (o: ActionOutcome)
    ensures !o.raised
    ensures var gate := IsTimeEqualToInput(t.config.dailyToastTime, now) && !repeated;
      && o.queries == (if gate then [TodayJql(t.jira, today)] else [])
      && (o.notification.Some? <==> gate && search.Found? && search.keys != [])
    ensures o.notification.Some? ==> o.notification == Announce(t, isWindows, DailyTitle, search.keys)
  {
    if IsTimeEqualToInput(t.config.dailyToastTime, now) && !repeated then
      var tickets := GetTicketsCreatedToday(t.jira, today, search);
      ActionOutcome([tickets.jql], Announce(t, isWindows, DailyTitle, tickets.keys), false)
    else
      ActionOutcome([], None, false)
  }

  /** `jira_routine_toast()`: always searches the recent window, notifies
      iff the search gave tickets, and lets a failed search escape. */
  function JiraRoutineToast(t: Triggers, isWindows: bool, windowStart: int -> string,
                            search: SearchResult): (o: ActionOutcome)
    ensures o.queries == [RecentJql(t.jira, windowStart(t.jira.ticketsFromLastMin))]
    ensures o.raised <==> search.SearchFailed?
    ensures o.notification.Some? <==> search.Found? && search.keys != []
    ensures o.notification.Some? ==> o.notification == Announce(t, isWindows, RoutineTitle, search.keys)
  {
    var tickets := GetTicketsCreatedSeconds(t.jira, windowStart, search);
    match tickets
    case Raised(jql) => ActionOutcome([jql], None, true)
    case Keys(jql, keys) => ActionOutcome([jql], Announce(t, isWindows, RoutineTitle, keys), false)
  }
}
