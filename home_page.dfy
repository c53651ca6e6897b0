/** The ledger's home page: it gates everything on the session, keeps the
    client list the income dialog offers, and remounts the monthly summary
    whenever an income or expense changes. */
module HomePage {
  import opened Wrappers
  import opened Backend
  import opened Calendar
  import opened Ledger
  import MonthlySummary

  const ClientsTable: string := "fet-clients"
  const LoginPath: string := "/login"
  const SignedOut: string := "SIGNED_OUT"

  /** What the page shows: the loading note, nothing (while the browser
      is sent to the login page), or the dashboard, whose income list is
      given the clients once they have loaded. */
  datatype Screen = LoadingScreen | Blank | Dashboard(incomeClients: Option<seq<ClientRow>>)

  class Component {
    var user: Option<User>
    var loading: bool
    var clients: seq<ClientRow>
    var loadingClients: bool
    /** The summary's `key`. */
    var refreshSummary: nat
    /** The auth effect's `isMounted` flag. */
    var mounted: bool
    var summary: MonthlySummary.Component

    constructor (today: Date)
      requires ValidDate(today)
      ensures user.None? && loading && clients == [] && loadingClients
      ensures refreshSummary == 0 && mounted
      ensures fresh(summary) && summary.Valid() && summary.currentMonth == MonthOf(today)
    {
      user := None;
      loading := true;
      clients := [];
      loadingClients := true;
      refreshSummary := 0;
      mounted := true;
      summary := new MonthlySummary.Component(today);
    }

    /** `fetchClients(userId)`: the clients the query returns, or none when
        it fails; no longer loading either way. */
    method FetchClients(userId: string, reply: Reply<seq<ClientRow>>)
      modifies this
      ensures clients == Fetched(Some(User(userId)), reply)
      ensures reply.Err? ==> clients == []
      ensures !loadingClients
      ensures user == old(user) && loading == old(loading) && refreshSummary == old(refreshSummary)
      ensures mounted == old(mounted) && summary == old(summary)
    {
      clients := Fetched(Some(User(userId)), reply);
      loadingClients := false;
    }

    /** `getUserAndClients()`, given the session reply and the reply to the
        client fetch it may start. Returns where the browser is sent and the
        user id whose clients were fetched. */
    method CheckSession(session: Reply<User>, clientsReply: Reply<seq<ClientRow>>)
      returns (redirect: Option<string>, fetchedFor: Option<string>)
      modifies this
      ensures session.Err? ==> (redirect == None && fetchedFor == None && user == old(user) &&
        clients == old(clients) && loadingClients == old(loadingClients) &&
        loading == (old(loading) && !mounted))
      ensures session.Ok? && session.data.None? ==> (redirect == Some(LoginPath) && fetchedFor == None &&
        user == old(user) && loading == old(loading) && clients == old(clients) &&
        loadingClients == old(loadingClients))
      ensures session.HasData() && !mounted ==> (redirect == None && fetchedFor == None &&
        user == old(user) && loading == old(loading) && clients == old(clients) &&
        loadingClients == old(loadingClients))
      ensures session.HasData() && mounted ==> (redirect == None &&
        user == session.data && !loading && fetchedFor == Some(session.data.value.id) &&
        clients == Fetched(session.data, clientsReply) && !loadingClients)
      ensures mounted == old(mounted) && refreshSummary == old(refreshSummary) && summary == old(summary)
    {
      redirect, fetchedFor := None, None;
      if session.Err? {
        if mounted {
          loading := false;
        }
        return;
      }
      if session.data.None? {
        redirect := Some(LoginPath);
      } else if mounted {
        user := session.data;
        loading := false;
        fetchedFor := Some(session.data.value.id);
        FetchClients(session.data.value.id, clientsReply);
      }
    }

    /** The `onAuthStateChange` listener, given the event, the user the
        event's session carries, and the reply to the client fetch it may
        start. */
    method OnAuthStateChange(event: string, sessionUser: Option<User>, clientsReply: Reply<seq<ClientRow>>)
      returns (redirect: Option<string>, fetchedFor: Option<string>)
      modifies this
      ensures !mounted ==> (redirect == None && fetchedFor == None && user == old(user) &&
        clients == old(clients) && loadingClients == old(loadingClients))
      ensures mounted && event == SignedOut ==> (redirect == Some(LoginPath) && fetchedFor == None &&
        user == old(user) && clients == old(clients) && loadingClients == old(loadingClients))
      ensures mounted && event != SignedOut && sessionUser.Some? ==> (redirect == None &&
        user == sessionUser && fetchedFor == Some(sessionUser.value.id) &&
        clients == Fetched(sessionUser, clientsReply) && !loadingClients)
      ensures mounted && event != SignedOut && sessionUser.None? ==> (redirect == Some(LoginPath) &&
        fetchedFor == None && user == old(user) && clients == old(clients) &&
        loadingClients == old(loadingClients))
      ensures loading == old(loading) && mounted == old(mounted)
      ensures refreshSummary == old(refreshSummary) && summary == old(summary)
    {
      redirect, fetchedFor := None, None;
      if !mounted {
        return;
      }
      if event == SignedOut {
        redirect := Some(LoginPath);
      } else if sessionUser.Some? {
        user := sessionUser;
        fetchedFor := Some(sessionUser.value.id);
        FetchClients(sessionUser.value.id, clientsReply);
      } else {
        redirect := Some(LoginPath);
      }
    }

    /** The effect's cleanup: later session replies and auth events change
        nothing. */
    method Unmount()
      modifies this
      ensures !mounted
      ensures user == old(user) && loading == old(loading) && clients == old(clients)
      ensures loadingClients == old(loadingClients) && refreshSummary == old(refreshSummary)
      ensures summary == old(summary)
    {
      mounted := false;
    }

    /** `handleLogout`, given the sign-out reply: on failure the page stops
        loading and keeps the user; on success it forgets the user and the
        clients and keeps showing the loading note until the sign-out
        event redirects. */
    method HandleLogout(outcome: Outcome)
      modifies this
      ensures outcome.Fail? ==> !loading && user == old(user) && clients == old(clients)
      ensures outcome.Pass? ==> loading && user.None? && clients == []
      ensures loadingClients == old(loadingClients) && mounted == old(mounted)
      ensures refreshSummary == old(refreshSummary) && summary == old(summary)
    {
      loading := true;
      if outcome.Fail? {
        loading := false;
      } else {
        user := None;
        clients := [];
      }
    }

    /** `handleDataChanged`: the counter goes up by one, and since it is the
        summary's key the summary is mounted afresh, on the current month
        and loading again. */
    method HandleDataChanged(today: Date)
      requires ValidDate(today)
      modifies this
      ensures refreshSummary == old(refreshSummary) + 1
      ensures fresh(summary) && summary.Valid()
      ensures summary.currentMonth == MonthOf(today) && summary.loading
      ensures user == old(user) && loading == old(loading) && clients == old(clients)
      ensures loadingClients == old(loadingClients) && mounted == old(mounted)
    {
      refreshSummary := refreshSummary + 1;
      summary := new MonthlySummary.Component(today);
    }

    /** `handleClientListChanged`: refetches the clients only when a user
        is signed in, and bumps the summary either way. */
    method HandleClientListChanged(today: Date, clientsReply: Reply<seq<ClientRow>>)
      returns (fetchedFor: Option<string>)
      requires ValidDate(today)
      modifies this
      ensures fetchedFor == (if user.Some? then Some(user.value.id) else None)
      ensures user.Some? ==> clients == Fetched(user, clientsReply) && !loadingClients
      ensures user.None? ==> clients == old(clients) && loadingClients == old(loadingClients)
      ensures refreshSummary == old(refreshSummary) + 1
      ensures fresh(summary) && summary.Valid() && summary.currentMonth == MonthOf(today)
      ensures user == old(user) && loading == old(loading) && mounted == old(mounted)
    {
      fetchedFor := None;
      if user.Some? {
        fetchedFor := Some(user.value.id);
        FetchClients(user.value.id, clientsReply);
      }
      HandleDataChanged(today);
    }

    /** The gate: loading first, then the user, then the clients. */
    function Render(): (s: Screen)
      reads this
      ensures s.LoadingScreen? <==> loading
      ensures s.Blank? <==> !loading && user.None?
      ensures s.Dashboard? ==> user.Some? && (s.incomeClients.Some? <==> !loadingClients)
      ensures s.Dashboard? && s.incomeClients.Some? ==> s.incomeClients.value == clients
    {
      if loading then LoadingScreen
      else if user.None? then Blank
      else if loadingClients then Dashboard(None)
      else Dashboard(Some(clients))
    }
  }

  /** From the initial state, a session with a user and a successful
      client fetch lead to the dashboard with that user's clients. */
  method SignInShowsClients(today: Date, u: User, rows: seq<ClientRow>) returns (s: Screen)
    requires ValidDate(today)
    ensures s == Dashboard(Some(rows))
  {
    var page := new Component(today);
    var redirect, fetchedFor := page.CheckSession(Ok(Some(u)), Ok(Some(rows)));
    s := page.Render();
  }

  /** After a successful logout the page shows the loading note, whatever
      it showed before. */
  method LogoutShowsLoading(today: Date, session: Reply<User>, clientsReply: Reply<seq<ClientRow>>)
    returns (s: Screen)
    requires ValidDate(today)
    ensures s == LoadingScreen
  {
    var page := new Component(today);
    var redirect, fetchedFor := page.CheckSession(session, clientsReply);
    page.HandleLogout(Pass);
    s := page.Render();
  }
}
