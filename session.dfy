/** collector/session.go: the user-session counts (inactive and active) from one single-row
    query, then the background-session count from a second one. This is one of the two
    package-level `ScrapeUserSessionCount` functions of the collector package; the other
    is modelled in module SessionGeneral. */
module Session {
  import opened Metric
  import opened Database
  import opened Probe

  const Subsystem := "session"

  const InactiveUserSession := Desc(BuildFQName(Namespace, Subsystem, "inactive_user_session"),
    "Number of inactive user sessions connected.", [])
  const ActiveUserSession := Desc(BuildFQName(Namespace, Subsystem, "active_user_session"),
    "Number of active user sessions connected.", [])
  const SystemSession := Desc(BuildFQName(Namespace, Subsystem, "system_session"),
    "Number of system sessions connected.", [])

  /** The three unlabelled families `oracle_session_<suffix>`. */
  lemma Families()
    ensures InactiveUserSession.fqName == Namespace + "_" + Subsystem + "_" + "inactive_user_session"
    ensures ActiveUserSession.fqName == Namespace + "_" + Subsystem + "_" + "active_user_session"
    ensures SystemSession.fqName == Namespace + "_" + Subsystem + "_" + "system_session"
    ensures InactiveUserSession.variableLabels == ActiveUserSession.variableLabels == SystemSession.variableLabels == []
  {
  }

  /** The user-session row scanned into `sessInactiveCnt, sessActiveCnt`. */
  datatype UserCounts = UserCounts(inactive: Value, active: Value)

  /** The two sends after the user-session row has been scanned. */
  function UserSamples(u: UserCounts): seq<Sample>
  {
    [Gauge(InactiveUserSession, u.inactive, []), Gauge(ActiveUserSession, u.active, [])]
  }

  /** The send after the system-session count has been scanned. */
  function SystemSamples(system: Value): seq<Sample>
  {
    [Gauge(SystemSession, system, [])]
  }

  /** What `ScrapeUserSessionCount` sends and returns, given the outcome of its two queries. */
  function UserSessionCount(users: SingleRow<UserCounts>, system: SingleRow<Value>): (o: Outcome)
    ensures o.err.None? <==> users.Found? && system.Found?
    ensures users.NotScanned? ==> o == Outcome([], Some(users.err))
    ensures users.Found? && system.NotScanned? ==> o.err == Some(system.err)
    ensures |o.emitted| == (if users.NotScanned? then 0 else if system.NotScanned? then 2 else 3)
  {
    AndThen(SingleOutcome(users, UserSamples), SingleOutcome(system, SystemSamples))
  }

  /** The samples sent are unlabelled gauges of the inactive, active and system families,
      in that order, however many of them are sent. */
  lemma UserSessionCountSamples(users: SingleRow<UserCounts>, system: SingleRow<Value>)
    ensures var o := UserSessionCount(users, system).emitted;
      forall i | 0 <= i < |o| ::
        && o[i].desc == [InactiveUserSession, ActiveUserSession, SystemSession][i]
        && o[i].valueType == GaugeValue
        && WellFormed(o[i])
  {
  }

  /** The values: inactive count, active count, then the system count. */
  lemma UserSessionCountValues(u: UserCounts, system: Value)
    ensures var o := UserSessionCount(Found(u), Found(system)).emitted;
      o[0].value == u.inactive && o[1].value == u.active && o[2].value == system
  {
  }

  /** A failing system-session query leaves the two user-session samples sent: exactly what
      a successful scrape sends before the system count, whatever that count is. */
  lemma SystemQueryFailure(u: UserCounts, e: Error, system: Value)
    ensures UserSessionCount(Found(u), NotScanned(e)) ==
      Outcome(UserSessionCount(Found(u), Found(system)).emitted[..2], Some(e))
  {
    var full := UserSamples(u) + SystemSamples(system);
    assert full[..2] == UserSamples(u);
    assert UserSamples(u) + [] == UserSamples(u);
  }

  /** `ScrapeUserSessionCount` of collector/session.go. The system count is scanned into the
      variable that held the active user count. */
  method ScrapeUserSessionCount(users: SingleRow<UserCounts>, system: SingleRow<Value>, ch: Channel)
    returns (err: Option<Error>)
    modifies ch
    ensures ch.sent == old(ch.sent) + UserSessionCount(users, system).emitted
    ensures err == UserSessionCount(users, system).err
  {
    var sessInactiveCnt: Value, sessActiveCnt: Value;
    match users {
      case NotScanned(e) =>
        return Some(e);
      case Found(u) =>
        sessInactiveCnt, sessActiveCnt := u.inactive, u.active;
    }
    ch.Send(Gauge(InactiveUserSession, sessInactiveCnt, []));
    ch.Send(Gauge(ActiveUserSession, sessActiveCnt, []));
    match system {
      case NotScanned(e) =>
        return Some(e);
      case Found(v) =>
        sessActiveCnt := v;
    }
    ch.Send(Gauge(SystemSession, sessActiveCnt, []));
    return None;
  }
}
