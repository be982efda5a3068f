/** The issue-tracker client: the JQL text of the two searches, how each
    search reports a failure, and the two notification-body formats. The
    remote search itself is an input (`SearchResult`). */
module JiraClient {
  import opened Wrappers
  import opened Text
  import Html
  import opened Helper

  /** The client's settings, fixed when it is built. */
  datatype Jira = Jira(
    config: Config,
    projectNames: seq<string>,
    jiraApiUrl: string,
    jiraApiToken: string,
    ticketsFromLastMin: int)

  /** `Jira.__init__`: each setting read with its default. */
  function NewJira(config: Config): Jira
  {
    Jira(config,
         config.projectNames.GetOr([]),
         config.jiraApiUrl.GetOr(""),
         config.jiraApiToken.GetOr(""),
         config.ticketsFromLastMin.GetOr(5))
  }

  /** What the tracker answers to a search: the matching issue keys in the
      order it returns them, or an error (transport, authentication, bad JQL). */
  datatype SearchResult = Found(keys: seq<string>) | SearchFailed

  /** A search as the client reports it: the JQL it sent, then the keys it
      returns or the exception it lets escape. */
  datatype QueryOutcome = Keys(jql: string, keys: seq<string>) | Raised(jql: string)

  const OrderByCreated := " ORDER BY created DESC"

  function ProjectClause(projects: seq<string>): string
  {
    "project in (" + Join(", ", projects) + ")"
  }

  function CreatedSince(date: string): string
  {
    " AND created >= \"" + date + "\""
  }

  /** The filter one user contributes. */
  function UserQuery(user: string): string
  {
    "(assignee=\"" + user + "\" OR reporter=\"" + user + "\")"
  }

  function UserQueries(users: seq<string>): (r: seq<string>)
  {
    seq(|users|, i requires 0 <= i < |users| => UserQuery(users[i]))
  }

  /** The JQL of `get_tickets_created_today`: the user clauses are joined by
      ` OR ` and appended after ` AND ` without parentheses. */
  function TodayJql(j: Jira, today: string): string
  {
    var users := j.config.users;
    if users.Some? && users.value != [] then
      var userQueries := UserQueries(users.value);
      ProjectClause(j.projectNames) + CreatedSince(today) + " AND " + Join(" OR ", userQueries) + OrderByCreated
    else
      ProjectClause(j.projectNames) + CreatedSince(today) + OrderByCreated
  }

  /** The JQL of `get_tickets_created_seconds`, built by appending. */
  function RecentJql(j: Jira, windowStart: string): string
  {
    var userQueries := UserQueries(j.config.users.GetOr([]));
    var jql := ProjectClause(j.projectNames) + CreatedSince(windowStart);
    var jql := if userQueries != [] then jql + " AND " + Join(" OR ", userQueries) else jql;
    jql + OrderByCreated
  }

  /** One reading of the query text both builders produce. */
  function UserFilter(users: seq<string>): string
  {
    if users == [] then "" else " AND " + Join(" OR ", UserQueries(users))
  }

  /** Both builders give the same text: the project clause, the creation
      bound, the user filter exactly when users are configured, and the
      ordering. */
  lemma JqlLayout(j: Jira, date: string)
    ensures var users := j.config.users.GetOr([]);
      && TodayJql(j, date) == ProjectClause(j.projectNames) + CreatedSince(date) + UserFilter(users) + OrderByCreated
      && RecentJql(j, date) == TodayJql(j, date)
      && (UserFilter(users) == "" <==> users == [])
  {
    var users := j.config.users.GetOr([]);
    assert users != [] ==> |UserFilter(users)| >= 5;
  }

  /** Both JQL strings start with the project clause and end with the ordering. */
  lemma JqlFrame(j: Jira, date: string)
    ensures var prefix := "project in (" + Join(", ", j.projectNames) + ")";
      && StartsWith(TodayJql(j, date), prefix) && EndsWith(TodayJql(j, date), OrderByCreated)
      && StartsWith(RecentJql(j, date), prefix) && EndsWith(RecentJql(j, date), OrderByCreated)
  {
    JqlLayout(j, date);
    var prefix := ProjectClause(j.projectNames);
    var filter := UserFilter(j.config.users.GetOr([]));
    assert (prefix + CreatedSince(date))[..|prefix|] == prefix;
    PrefixKept(prefix + CreatedSince(date), prefix, filter);
    PrefixKept(prefix + CreatedSince(date) + filter, prefix, OrderByCreated);
    SuffixOf(prefix + CreatedSince(date) + filter, OrderByCreated);
  }

  /** `get_tickets_created_today`: a failed search is logged and read as no
      tickets, so this query never raises. */
  function GetTicketsCreatedToday(j: Jira, today: string, search: SearchResult): (r: QueryOutcome)
    ensures r.Keys? && r.jql == TodayJql(j, today)
    ensures r.keys == if search.Found? then search.keys else []
  {
    match search
    case Found(keys) => Keys(TodayJql(j, today), keys)
    case SearchFailed => Keys(TodayJql(j, today), [])
  }

  /** `get_tickets_created_seconds`: the window starts `tickets_from_last_min`
      minutes before now; `windowStart(n)` is the clock minus `n` minutes
      rendered as `%Y-%m-%d %H:%M`. A failed search propagates. */
  function GetTicketsCreatedSeconds(j: Jira, windowStart: int -> string, search: SearchResult): (r: QueryOutcome)
    ensures r.jql == RecentJql(j, windowStart(j.ticketsFromLastMin))
    ensures r.Raised? <==> search.SearchFailed?
    ensures r.Keys? ==> r.keys == search.keys
  {
    var jql := RecentJql(j, windowStart(j.ticketsFromLastMin));
    match search
    case Found(keys) => Keys(jql, keys)
    case SearchFailed => Raised(jql)
  }

  /** The line the body gives one ticket when a base URL is set. */
  function LinkLine(baseUrl: string, ticket: string): string
  {
    "<a href='" + baseUrl + "/browse/" + Html.Escape(ticket) + "'>" + Html.Escape(ticket) + "</a>"
  }

  function LinkLines(baseUrl: string, tickets: seq<string>): seq<string>
  {
    seq(|tickets|, i requires 0 <= i < |tickets| => LinkLine(baseUrl, tickets[i]))
  }

  /** Python truthiness of an optional string: present and non-empty. */
  predicate Truthy(s: Option<string>)
  {
    s.Some? && s.value != ""
  }

  /** The body `prepare_tickets_with_link` builds. */
  function LinkBody(tickets: Option<seq<string>>, baseUrl: Option<string>): string
  {
    if tickets.None? then ""
    else if Truthy(baseUrl) then Terminated(LinkLines(baseUrl.value, tickets.value))
    else Terminated(tickets.value)
  }

  /** `prepare_tickets_with_link`: one line per ticket, appended in order. */
  method PrepareTicketsWithLink(tickets: Option<seq<string>>, baseUrl: Option<string>) returns (body: string)
    ensures body == LinkBody(tickets, baseUrl)
    ensures tickets.None? ==> body == ""
  {
    if tickets.None? {
      return "";
    }
    var ts := tickets.value;
    body := "";
    if Truthy(baseUrl) {
      var lines := LinkLines(baseUrl.value, ts);
      for i := 0 to |ts|
        invariant body == Terminated(lines[..i])
      {
        var ticketLink := LinkLine(baseUrl.value, ts[i]);
        assert lines[..i + 1][..i] == lines[..i];
        body := body + ticketLink + "\n";
      }
      assert lines[..|ts|] == lines;
    } else {
      for i := 0 to |ts|
        invariant body == Terminated(ts[..i])
      {
        assert ts[..i + 1][..i] == ts[..i];
        body := body + ts[i] + "\n";
      }
      assert ts[..|ts|] == ts;
    }
  }

  /** `prepare_tickets_with_link_windows`: the keys joined by newlines. */
  function PrepareTicketsWithLinkWindows(tickets: seq<string>): string
  {
    Join("\n", tickets)
  }

  /** With a base URL, the link is built from the escaped key: the text
      inserted twice is attribute-safe and unescapes to the key. */
  lemma LinkLineEscapes(baseUrl: string, ticket: string)
    ensures var e := Html.Escape(ticket);
      && LinkLine(baseUrl, ticket) == "<a href='" + baseUrl + "/browse/" + e + "'>" + e + "</a>"
      && Html.AttributeSafe(e) && Html.Unescape(e) == ticket
  {
    Html.EscapeSafe(ticket);
    Html.UnescapeEscape(ticket);
  }

  /** With a base URL, the body has one line per ticket, in input order,
      each line the ticket's link, and ends with a newline. */
  lemma LinkBodyLines(tickets: seq<string>, baseUrl: Option<string>)
    requires Truthy(baseUrl) && '\n' !in baseUrl.value && FreeOf('\n', tickets)
    ensures Split(LinkBody(Some(tickets), baseUrl), '\n') == LinkLines(baseUrl.value, tickets) + [""]
  {
    var lines := LinkLines(baseUrl.value, tickets);
    forall i | 0 <= i < |lines| ensures '\n' !in lines[i] {
      Html.EscapeKeepsOut(tickets[i], '\n');
    }
    TerminatedLines(lines);
  }

  /** Without a base URL, the body is each key, unescaped, on its own line in
      input order. */
  lemma PlainBodyLines(tickets: seq<string>, baseUrl: Option<string>)
    requires !Truthy(baseUrl) && FreeOf('\n', tickets)
    ensures Split(LinkBody(Some(tickets), baseUrl), '\n') == tickets + [""]
  {
    TerminatedLines(tickets);
  }

  /** Without a base URL, no tickets give the empty body, and otherwise the
      body is the Windows body followed by one newline. */
  lemma PlainBodyIsWindowsBody(tickets: seq<string>, baseUrl: Option<string>)
    requires !Truthy(baseUrl)
    ensures tickets == [] ==> LinkBody(Some(tickets), baseUrl) == ""
    ensures tickets != [] ==> LinkBody(Some(tickets), baseUrl) == PrepareTicketsWithLinkWindows(tickets) + "\n"
  {
    if tickets != [] {
      TerminatedIsJoinPlusNewline(tickets);
    }
  }

  /** The Windows body: empty for no keys, the key itself for one, and
      otherwise the keys split back out of it with no final newline. */
  lemma WindowsBodyLines(tickets: seq<string>)
    ensures tickets == [] ==> PrepareTicketsWithLinkWindows(tickets) == ""
    ensures |tickets| == 1 ==> PrepareTicketsWithLinkWindows(tickets) == tickets[0]
    ensures tickets != [] && FreeOf('\n', tickets)
      ==> Split(PrepareTicketsWithLinkWindows(tickets), '\n') == tickets
    ensures tickets != [] && FreeOf('\n', tickets) && tickets[|tickets| - 1] != ""
      ==> var r := PrepareTicketsWithLinkWindows(tickets); r != "" && r[|r| - 1] != '\n'
  {
    if tickets != [] && FreeOf('\n', tickets) {
      SplitJoin(tickets, '\n');
      var last := tickets[|tickets| - 1];
      JoinEndsWithLast("\n", tickets);
      if last != "" {
        var r := PrepareTicketsWithLinkWindows(tickets);
        assert r[|r| - 1] == r[|r| - |last|..][|last| - 1] == last[|last| - 1];
        assert last[|last| - 1] in last;
      }
    }
  }

  /** Without a configuration file the client uses no projects, empty URL
      and token, and a five-minute window. */
  lemma EmptyConfigDefaults()
    ensures NewJira(LoadConfig(FileNotFound)) == Jira(EmptyConfig, [], "", "", 5)
  {
  }

  /** The query text piece by piece: the OR of user clauses follows the
      ANDs without enclosing parentheses, so JQL reads it as
      `(projects AND created AND user1) OR user2`. */
  lemma TodayJqlExample()
    ensures var config := EmptyConfig.(projectNames := Some(["PRA", "PRB"]), users := Some(["ann", "bob"]));
      TodayJql(NewJira(config), "2024-05-02")
      == "project in (PRA, PRB)" + " AND created >= \"2024-05-02\"" + " AND "
         + "(assignee=\"ann\" OR reporter=\"ann\")" + " OR " + "(assignee=\"bob\" OR reporter=\"bob\")"
         + " ORDER BY created DESC"
  {
    var config := EmptyConfig.(projectNames := Some(["PRA", "PRB"]), users := Some(["ann", "bob"]));
    TwoUsersExample();
    TwoProjectsExample();
    assert TodayJql(NewJira(config), "2024-05-02")
      == ProjectClause(["PRA", "PRB"]) + CreatedSince("2024-05-02") + " AND "
         + Join(" OR ", UserQueries(["ann", "bob"])) + OrderByCreated;
  }

  lemma TwoUsersExample()
    ensures Join(" OR ", UserQueries(["ann", "bob"]))
      == "(assignee=\"ann\" OR reporter=\"ann\")" + " OR " + "(assignee=\"bob\" OR reporter=\"bob\")"
  {
    var uq := UserQueries(["ann", "bob"]);
    assert uq[..1] == [UserQuery("ann")];
  }

  lemma TwoProjectsExample()
    ensures ProjectClause(["PRA", "PRB"]) == "project in (PRA, PRB)"
  {
    assert ["PRA", "PRB"][..1] == ["PRA"];
  }

  /** Without users the recent query carries only projects and the window. */
  lemma RecentJqlExample()
    ensures var config := EmptyConfig.(projectNames := Some(["PRA"]));
      RecentJql(NewJira(config), "2024-05-02 08:45")
      == "project in (PRA)" + " AND created >= \"2024-05-02 08:45\"" + " ORDER BY created DESC"
  {
    assert UserQueries([]) == [];
  }
}
