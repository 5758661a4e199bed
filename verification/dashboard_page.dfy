/** The dashboard page: the session gate, the view it renders, and the
    user and statistics it starts from. */
module DashboardPage {
  import opened Js
  import opened SessionGate

  datatype DashboardUser = DashboardUser(name: string, email: string, joinDate: string)

  /** One statistics card; icon and colour are presentation only. */
  datatype Stat = Stat(caption: string, value: int)

  datatype PageState = PageState(user: DashboardUser, stats: seq<Stat>)

  const StatLabels := ["Projects Completed", "Active Projects", "Pending Payments", "Messages"]

  /** The state before the effect runs; `today` is the current date. */
  function InitialState(today: string): (st: PageState)
    ensures st.user == DashboardUser("Guest", "", today)
    ensures |st.stats| == 4
    ensures forall k | 0 <= k < 4 :: st.stats[k] == Stat(StatLabels[k], 0)
  {
    PageState(DashboardUser("Guest", "", today), seq(4, k requires 0 <= k < 4 => Stat(StatLabels[k], 0)))
  }

  datatype EffectResult = EffectResult(state: PageState, pushes: seq<string>)

  /** The auth effect; it never touches the statistics. */
  function AuthEffect(st: PageState, status: AuthStatus, session: Option<Session>, today: string): (r: EffectResult)
    ensures r.state.stats == st.stats
    ensures status == Loading ==> r == EffectResult(st, [])
    ensures status != Loading && session.None? ==> r == EffectResult(st, [LoginPath])
    ensures status != Loading && session.Some? ==>
              && r.pushes == []
              && r.state.user.name == Or(UserName(session.value), "User")
              && r.state.user.email == Or(UserEmail(session.value), "")
              && r.state.user.joinDate == today
  {
    var g := Decide(status, session);
    match g
    case Admit(name, email) => EffectResult(st.(user := DashboardUser(name, email, today)), Pushes(g))
    case _ => EffectResult(st, Pushes(g))
  }

  /** The view rendered: unlike the profile page there is no local loading
      flag, so a resolved status without a session renders nothing. */
  function Render(status: AuthStatus, session: Option<Session>): (v: View)
    ensures v == LoadingView <==> status == Loading
    ensures v == NothingView <==> status != Loading && session.None?
    ensures v == PageView <==> status != Loading && session.Some?
  {
    if status == Loading then LoadingView
    else if session.None? then NothingView
    else PageView
  }

  /** Without a session the dashboard redirects to the login page and,
      having no local loading flag, renders nothing. */
  lemma NoSessionRendersNothing(status: AuthStatus, today: string)
    requires status != Loading
    ensures var r := AuthEffect(InitialState(today), status, None, today);
            && r.pushes == [LoginPath]
            && r.state == InitialState(today)
            && Render(status, None) == NothingView
  {
  }

  /** The state after the effect has run once per entry of `inputs`. */
  function RunEffects(st: PageState, inputs: seq<(AuthStatus, Option<Session>)>, today: string): PageState
    decreases |inputs|
  {
    if inputs == [] then st
    else RunEffects(AuthEffect(st, inputs[0].0, inputs[0].1, today).state, inputs[1..], today)
  }

  /** However often the effect runs, every statistic stays at 0. */
  lemma {:induction false} StatsStayZero(inputs: seq<(AuthStatus, Option<Session>)>, start: string, today: string)
    ensures var st := RunEffects(InitialState(start), inputs, today);
            |st.stats| == 4 && forall k | 0 <= k < 4 :: st.stats[k].value == 0
  {
    StatsUnchanged(InitialState(start), inputs, today);
  }

  lemma {:induction false} StatsUnchanged(st: PageState, inputs: seq<(AuthStatus, Option<Session>)>, today: string)
    ensures RunEffects(st, inputs, today).stats == st.stats
    decreases |inputs|
  {
    if inputs != [] {
      StatsUnchanged(AuthEffect(st, inputs[0].0, inputs[0].1, today).state, inputs[1..], today);
    }
  }
}
