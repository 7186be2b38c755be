/**
 The sliding-window limiter of abuse-controls.ts with the retention of abuse-monitoring.ts.

 Every request records its event and then checks the limits of its endpoint one query at a time;
 records, checks and retention sweeps of all requests interleave, and clocks may disagree.
 */
module RateLimiter {
  import opened Common

  type RequestId = nat
  type Endpoint = string
  type Time = int

  datatype Scope = ByIp | ByInstallation

  datatype Config = Config(scope: Scope, window: nat, maxRequests: nat)

  /** The row of broker_request_events; addresses stand for their canonical identity. */
  datatype Event = Event(endpoint: Endpoint, ip: Option<string>, installation: Option<string>, at: Time)

  function SubjectOf(e: Event, scope: Scope): Option<string> {
    if scope.ByIp? then e.ip else e.installation
  }

  type Events = map<RequestId, Event>

  /** The rows one query counts: without an address the IP query counts the whole endpoint. */
  function CountedRows(events: Events, e: Event, c: Config): set<RequestId> {
    set i | i in events && events[i].endpoint == e.endpoint && events[i].at >= e.at - c.window
      && (SubjectOf(e, c.scope).None? || SubjectOf(events[i], c.scope) == SubjectOf(e, c.scope))
  }

  /** One limit lets a request pass; an installation limit skips requests without an installation. */
  predicate Passes(events: Events, e: Event, c: Config) {
    (c.scope.ByInstallation? && e.installation.None?) || |CountedRows(events, e, c)| <= c.maxRequests
  }

  // ---------------------------------------------------------------- the whole system

  /** A request: how many limits of its endpoint it has passed, and whether one refused it. */
  datatype Progress = Progress(event: Event, recorded: bool, passed: nat, refused: bool)

  /** `limits` per endpoint; `longest` and `margin` are what retention keeps; `swept` is the latest sweep. */
  datatype World = World(
    limits: map<Endpoint, seq<Config>>, longest: nat, margin: nat,
    events: Events, requests: map<RequestId, Progress>, swept: Option<Time>)

  function LimitsOf(w: World, endpoint: Endpoint): seq<Config> {
    if endpoint in w.limits then w.limits[endpoint] else []
  }

  datatype Action =
    | Arrive(id: RequestId, event: Event)
    | Record(id: RequestId)
    | Check(id: RequestId)
    | Retain(now: Time)

  function CheckStep(w: World, id: RequestId): World {
    if id !in w.requests || !w.requests[id].recorded || w.requests[id].refused then w
    else
      var r := w.requests[id];
      var limits := LimitsOf(w, r.event.endpoint);
      if r.passed >= |limits| then w
      else if Passes(w.events, r.event, limits[r.passed]) then
        w.(requests := w.requests[id := r.(passed := r.passed + 1)])
      else w.(requests := w.requests[id := r.(refused := true)])
  }

  function Next(w: World, a: Action): World {
    match a
    case Arrive(id, event) => if id in w.requests then w else w.(requests := w.requests[id := Progress(event, false, 0, false)])
    case Record(id) =>
      if id !in w.requests || w.requests[id].recorded then w
      else
        var e := w.requests[id].event;
        w.(requests := w.requests[id := w.requests[id].(recorded := true)],
           events := if e.ip.None? && e.installation.None? then w.events else w.events[id := e])
    case Check(id) => CheckStep(w, id)
    case Retain(now) =>
      var cutoff := now - w.margin - w.longest;
      w.(events := map i | i in w.events && w.events[i].at >= cutoff :: w.events[i],
         swept := Some(if w.swept.Some? && w.swept.value > now then w.swept.value else now))
  }

  function Run(w: World, actions: seq<Action>): World
    decreases |actions|
  {
    if actions == [] then w else Next(Run(w, actions[..|actions| - 1]), actions[|actions| - 1])
  }

  /** The clock of a request that checks is at most `lag` behind any sweep before it. */
  predicate Lags(w: World, a: Action, lag: nat) {
    a.Check? && a.id in w.requests && w.swept.Some? ==> w.requests[a.id].event.at >= w.swept.value - lag
  }

  ghost predicate LagsAtMost(w: World, actions: seq<Action>, lag: nat) {
    forall n | 0 <= n < |actions| :: Lags(Run(w, actions[..n]), actions[n], lag)
  }

  function Start(limits: map<Endpoint, seq<Config>>, longest: nat, margin: nat): World {
    World(limits, longest, margin, map[], map[], None)
  }

  // ---------------------------------------------------------------- the limit

  /** The requests of one subject that passed limit `k`, with times in the closed window from `x`. */
  function PassedIn(w: World, endpoint: Endpoint, k: nat, subject: string, x: Time): set<RequestId>
    requires k < |LimitsOf(w, endpoint)|
  {
    var c := LimitsOf(w, endpoint)[k];
    set i | i in w.requests && w.requests[i].passed > k && w.requests[i].event.endpoint == endpoint
      && SubjectOf(w.requests[i].event, c.scope) == Some(subject) && x <= w.requests[i].event.at <= x + c.window
  }

  /** No closed window of a limit that retention covers holds more than its maximum. */
  ghost predicate WindowsHold(w: World) {
    forall endpoint, k: nat, subject, x |
      k < |LimitsOf(w, endpoint)| && LimitsOf(w, endpoint)[k].window <= w.longest ::
      |PassedIn(w, endpoint, k, subject, x)| <= LimitsOf(w, endpoint)[k].maxRequests
  }

  /** The event of a recorded request is there, unless a sweep found it older than it keeps. */
  predicate EventKept(w: World, id: RequestId)
    requires id in w.requests
  {
    var e := w.requests[id].event;
    w.requests[id].recorded && (e.ip.Some? || e.installation.Some?) ==>
      (id in w.events && w.events[id] == e)
      || (w.swept.Some? && e.at < w.swept.value - w.margin - w.longest)
  }

  ghost predicate Inv(w: World) {
    && WindowsHold(w)
    && (forall id | id in w.requests :: EventKept(w, id) && (w.requests[id].passed > 0 ==> w.requests[id].recorded))
  }

  /** Whoever checks last has counted every request that passed in its window. */
  lemma LastCheckCountsAll(w: World, id: RequestId, v: World, c: Config, subject: string, x: Time, k: nat)
    requires Inv(w) && id in w.requests && w.requests[id].recorded
    requires w.swept.Some? ==> w.requests[id].event.at >= w.swept.value - w.margin
    requires var r := w.requests[id];
             && k == r.passed < |LimitsOf(w, r.event.endpoint)| && c == LimitsOf(w, r.event.endpoint)[k]
             && c.window <= w.longest && SubjectOf(r.event, c.scope) == Some(subject)
             && x <= r.event.at <= x + c.window
             && v == w.(requests := w.requests[id := r.(passed := k + 1)])
    ensures PassedIn(v, w.requests[id].event.endpoint, k, subject, x) <= CountedRows(w.events, w.requests[id].event, c)
  {
  }

  /** One request passes limit `k`; a window that now holds it is one of the windows its check counted. */
  lemma PassKeepsWindow(w: World, id: RequestId, v: World, c: Config, subject: string, x: Time, k: nat)
    requires Inv(w) && id in w.requests && w.requests[id].recorded && Passes(w.events, w.requests[id].event, c)
    requires w.swept.Some? ==> w.requests[id].event.at >= w.swept.value - w.margin
    requires var r := w.requests[id];
             && k == r.passed < |LimitsOf(w, r.event.endpoint)| && c == LimitsOf(w, r.event.endpoint)[k]
             && c.window <= w.longest && SubjectOf(r.event, c.scope) == Some(subject)
             && x <= r.event.at <= x + c.window
             && v == w.(requests := w.requests[id := r.(passed := k + 1)])
    ensures |PassedIn(v, w.requests[id].event.endpoint, k, subject, x)| <= c.maxRequests
  {
    LastCheckCountsAll(w, id, v, c, subject, x, k);
    SubsetIsSmaller(PassedIn(v, w.requests[id].event.endpoint, k, subject, x), CountedRows(w.events, w.requests[id].event, c));
  }

  /** A window that no newly passed request falls into holds no more than before. */
  lemma WindowUntouched(w: World, v: World, endpoint: Endpoint, k: nat, subject: string, x: Time)
    requires WindowsHold(w) && v.limits == w.limits && v.longest == w.longest
    requires k < |LimitsOf(w, endpoint)| && LimitsOf(w, endpoint)[k].window <= w.longest
    requires PassedIn(v, endpoint, k, subject, x) <= PassedIn(w, endpoint, k, subject, x)
    ensures |PassedIn(v, endpoint, k, subject, x)| <= LimitsOf(w, endpoint)[k].maxRequests
  {
    assert |PassedIn(w, endpoint, k, subject, x)| <= LimitsOf(w, endpoint)[k].maxRequests;
    SubsetIsSmaller(PassedIn(v, endpoint, k, subject, x), PassedIn(w, endpoint, k, subject, x));
  }

  lemma WindowAfterPass(w: World, id: RequestId, v: World, endpoint: Endpoint, k: nat, subject: string, x: Time)
    requires Inv(w) && Lags(w, Check(id), w.margin)
    requires id in w.requests && w.requests[id].recorded
    requires var r := w.requests[id];
             && r.passed < |LimitsOf(w, r.event.endpoint)|
             && Passes(w.events, r.event, LimitsOf(w, r.event.endpoint)[r.passed])
             && v == w.(requests := w.requests[id := r.(passed := r.passed + 1)])
    requires k < |LimitsOf(w, endpoint)| && LimitsOf(w, endpoint)[k].window <= w.longest
    ensures |PassedIn(v, endpoint, k, subject, x)| <= LimitsOf(w, endpoint)[k].maxRequests
  {
    var r, c := w.requests[id], LimitsOf(w, endpoint)[k];
    if r.passed == k && r.event.endpoint == endpoint && SubjectOf(r.event, c.scope) == Some(subject)
       && x <= r.event.at <= x + c.window {
      PassKeepsWindow(w, id, v, c, subject, x, k);
    } else {
      WindowUntouched(w, v, endpoint, k, subject, x);
    }
  }

  lemma PassKeepsWindows(w: World, id: RequestId, v: World)
    requires Inv(w) && Lags(w, Check(id), w.margin) && v == CheckStep(w, id)
    ensures WindowsHold(v)
  {
    if v != w && !v.requests[id].refused {
      forall endpoint, k: nat, subject, x | k < |LimitsOf(v, endpoint)| && LimitsOf(v, endpoint)[k].window <= v.longest
        ensures |PassedIn(v, endpoint, k, subject, x)| <= LimitsOf(v, endpoint)[k].maxRequests
      {
        WindowAfterPass(w, id, v, endpoint, k, subject, x);
      }
    } else {
      SamePassesKeepWindows(w, v);
    }
  }

  lemma SamePassesKeepWindows(w: World, v: World)
    requires WindowsHold(w) && v.limits == w.limits && v.longest == w.longest
    requires forall i | i in v.requests && v.requests[i].passed > 0 ::
               i in w.requests && w.requests[i].event == v.requests[i].event && w.requests[i].passed == v.requests[i].passed
    ensures WindowsHold(v)
  {
    forall endpoint, k: nat, subject, x | k < |LimitsOf(v, endpoint)| && LimitsOf(v, endpoint)[k].window <= v.longest
      ensures |PassedIn(v, endpoint, k, subject, x)| <= LimitsOf(v, endpoint)[k].maxRequests
    {
      WindowUntouched(w, v, endpoint, k, subject, x);
    }
  }

  lemma NextKeepsEvents(w: World, a: Action, v: World)
    requires v == Next(w, a)
    requires forall id | id in w.requests :: EventKept(w, id) && (w.requests[id].passed > 0 ==> w.requests[id].recorded)
    ensures forall id | id in v.requests :: EventKept(v, id) && (v.requests[id].passed > 0 ==> v.requests[id].recorded)
  {
    forall id | id in v.requests ensures EventKept(v, id) && (v.requests[id].passed > 0 ==> v.requests[id].recorded) {
      assert id in w.requests ==> EventKept(w, id);
    }
  }

  lemma NextKeepsInv(w: World, a: Action, v: World)
    requires Inv(w) && Lags(w, a, w.margin) && v == Next(w, a)
    ensures Inv(v)
  {
    NextKeepsEvents(w, a, v);
    if a.Check? {
      PassKeepsWindows(w, a.id, v);
    } else {
      SamePassesKeepWindows(w, v);
    }
  }

  lemma {:induction false} RunKeepsInv(w: World, actions: seq<Action>)
    requires Inv(w) && LagsAtMost(w, actions, w.margin)
    ensures Inv(Run(w, actions))
    decreases |actions|
  {
    if actions != [] {
      var n := |actions| - 1;
      LagsPrefix(w, actions, n, w.margin);
      RunKeepsInv(w, actions[..n]);
      RunKeepsSettings(w, actions[..n]);
      NextKeepsInv(Run(w, actions[..n]), actions[n], Run(w, actions));
    }
  }

  lemma LagsPrefix(w: World, actions: seq<Action>, n: nat, lag: nat)
    requires n <= |actions| && LagsAtMost(w, actions, lag)
    ensures LagsAtMost(w, actions[..n], lag)
  {
    forall m | 0 <= m < n ensures Lags(Run(w, actions[..n][..m]), actions[..n][m], lag) {
      assert actions[..n][..m] == actions[..m];
    }
  }

  lemma {:induction false} RunKeepsSettings(w: World, actions: seq<Action>)
    ensures var v := Run(w, actions); v.limits == w.limits && v.longest == w.longest && v.margin == w.margin
    decreases |actions|
  {
    if actions != [] { RunKeepsSettings(w, actions[..|actions| - 1]); }
  }

  lemma StartIsOk(limits: map<Endpoint, seq<Config>>, longest: nat, margin: nat)
    ensures Inv(Start(limits, longest, margin))
  {
  }

  /**
   Whatever interleaves, every closed window of a covered limit holds at most its maximum of passed
   requests per subject, as long as no checking clock lags a sweep by more than the margin.
   */
  lemma WindowsHoldOverRuns(limits: map<Endpoint, seq<Config>>, longest: nat, margin: nat, actions: seq<Action>)
    requires LagsAtMost(Start(limits, longest, margin), actions, margin)
    ensures WindowsHold(Run(Start(limits, longest, margin), actions))
  {
    StartIsOk(limits, longest, margin);
    RunKeepsInv(Start(limits, longest, margin), actions);
  }

  /** A request is accepted when it has passed every limit of its endpoint. */
  predicate Accepted(w: World, id: RequestId)
    requires id in w.requests
  {
    w.requests[id].recorded && !w.requests[id].refused && w.requests[id].passed >= |LimitsOf(w, w.requests[id].event.endpoint)|
  }

  function AcceptedIn(w: World, endpoint: Endpoint, c: Config, subject: string, x: Time): set<RequestId> {
    set i | i in w.requests && Accepted(w, i) && w.requests[i].event.endpoint == endpoint
      && SubjectOf(w.requests[i].event, c.scope) == Some(subject) && x <= w.requests[i].event.at <= x + c.window
  }

  /** The promise of the limiter: accepted requests of a subject in any closed window of any limit. */
  lemma AcceptedStayWithinLimit(limits: map<Endpoint, seq<Config>>, longest: nat, margin: nat, actions: seq<Action>,
                                endpoint: Endpoint, c: Config, subject: string, x: Time)
    requires endpoint in limits && c in limits[endpoint] && c.window <= longest
    requires LagsAtMost(Start(limits, longest, margin), actions, margin)
    ensures |AcceptedIn(Run(Start(limits, longest, margin), actions), endpoint, c, subject, x)| <= c.maxRequests
  {
    WindowsHoldOverRuns(limits, longest, margin, actions);
    var w := Run(Start(limits, longest, margin), actions);
    RunKeepsSettings(Start(limits, longest, margin), actions);
    var k :| 0 <= k < |limits[endpoint]| && limits[endpoint][k] == c;
    SubsetIsSmaller(AcceptedIn(w, endpoint, c, subject, x), PassedIn(w, endpoint, k, subject, x));
  }

  // ---------------------------------------------------------------- no false refusal

  /** The recorded requests of an endpoint since a time. */
  function Recent(requests: map<RequestId, Progress>, endpoint: Endpoint, since: Time): set<RequestId> {
    set i | i in requests && requests[i].recorded && requests[i].event.endpoint == endpoint && requests[i].event.at >= since
  }

  function RecentFrom(requests: map<RequestId, Progress>, endpoint: Endpoint, since: Time, ip: string): set<RequestId> {
    set i | i in Recent(requests, endpoint, since) && requests[i].event.ip == Some(ip)
  }

  function RecentOf(requests: map<RequestId, Progress>, endpoint: Endpoint, since: Time, installation: string): set<RequestId> {
    set i | i in Recent(requests, endpoint, since) && requests[i].event.installation == Some(installation)
  }

  /** More recorded requests of this endpoint, and of this address or installation, than the limit allows. */
  predicate RequestsExceed(requests: map<RequestId, Progress>, e: Event, c: Config) {
    var since := e.at - c.window;
    && (c.scope.ByIp? && e.ip.None? ==> |Recent(requests, e.endpoint, since)| > c.maxRequests)
    && (c.scope.ByIp? && e.ip.Some? ==> |RecentFrom(requests, e.endpoint, since, e.ip.value)| > c.maxRequests)
    && (c.scope.ByInstallation? ==>
          e.installation.Some? && |RecentOf(requests, e.endpoint, since, e.installation.value)| > c.maxRequests)
  }

  /** Every event is that of a recorded request. */
  ghost predicate EventsAreRequests(w: World) {
    forall i | i in w.events :: i in w.requests && w.requests[i].recorded && w.requests[i].event == w.events[i]
  }

  /** A refused request has met a limit that more requests than allowed had reached. */
  ghost predicate RefusedRightly(w: World) {
    forall i | i in w.requests && w.requests[i].refused ::
      var q := w.requests[i];
      q.passed < |LimitsOf(w, q.event.endpoint)| && RequestsExceed(w.requests, q.event, LimitsOf(w, q.event.endpoint)[q.passed])
  }

  /** Requests and their records stay, so a limit once exceeded stays exceeded. */
  lemma ExceededStays(a: map<RequestId, Progress>, b: map<RequestId, Progress>, e: Event, c: Config)
    requires RequestsExceed(a, e, c)
    requires forall i | i in a :: i in b && b[i].event == a[i].event && (a[i].recorded ==> b[i].recorded)
    ensures RequestsExceed(b, e, c)
  {
    var since := e.at - c.window;
    if c.scope.ByIp? && e.ip.None? {
      SubsetIsSmaller(Recent(a, e.endpoint, since), Recent(b, e.endpoint, since));
    } else if c.scope.ByIp? {
      SubsetIsSmaller(RecentFrom(a, e.endpoint, since, e.ip.value), RecentFrom(b, e.endpoint, since, e.ip.value));
    } else {
      SubsetIsSmaller(RecentOf(a, e.endpoint, since, e.installation.value), RecentOf(b, e.endpoint, since, e.installation.value));
    }
  }

  lemma RefusalIsRight(w: World, e: Event, c: Config)
    requires EventsAreRequests(w) && !Passes(w.events, e, c)
    ensures RequestsExceed(w.requests, e, c)
  {
    var rows, since := CountedRows(w.events, e, c), e.at - c.window;
    if c.scope.ByIp? && e.ip.None? {
      SubsetIsSmaller(rows, Recent(w.requests, e.endpoint, since));
    } else if c.scope.ByIp? {
      SubsetIsSmaller(rows, RecentFrom(w.requests, e.endpoint, since, e.ip.value));
    } else {
      SubsetIsSmaller(rows, RecentOf(w.requests, e.endpoint, since, e.installation.value));
    }
  }

  lemma StepRefusesRightly(w: World, a: Action, v: World, i: RequestId)
    requires EventsAreRequests(w) && RefusedRightly(w) && v == Next(w, a) && i in v.requests && v.requests[i].refused
    ensures var q := v.requests[i];
            q.passed < |LimitsOf(v, q.event.endpoint)| && RequestsExceed(w.requests, q.event, LimitsOf(v, q.event.endpoint)[q.passed])
  {
    var q := v.requests[i];
    if !w.requests[i].refused { RefusalIsRight(w, q.event, LimitsOf(w, q.event.endpoint)[q.passed]); }
  }

  lemma NextRefusesRightly(w: World, a: Action, v: World)
    requires EventsAreRequests(w) && RefusedRightly(w) && v == Next(w, a)
    ensures EventsAreRequests(v) && RefusedRightly(v)
  {
    forall i | i in v.requests && v.requests[i].refused
      ensures var q := v.requests[i];
              q.passed < |LimitsOf(v, q.event.endpoint)| && RequestsExceed(v.requests, q.event, LimitsOf(v, q.event.endpoint)[q.passed])
    {
      var q := v.requests[i];
      StepRefusesRightly(w, a, v, i);
      ExceededStays(w.requests, v.requests, q.event, LimitsOf(v, q.event.endpoint)[q.passed]);
    }
  }

  lemma {:induction false} RunRefusesRightly(w: World, actions: seq<Action>)
    requires EventsAreRequests(w) && RefusedRightly(w)
    ensures EventsAreRequests(Run(w, actions)) && RefusedRightly(Run(w, actions))
    decreases |actions|
  {
    if actions != [] {
      var n := |actions| - 1;
      RunRefusesRightly(w, actions[..n]);
      NextRefusesRightly(Run(w, actions[..n]), actions[n], Run(w, actions));
    }
  }

  /**
   No request is refused for nothing: in every run, whatever the clocks and the sweeps, a refused request
   has met a limit of its endpoint whose maximum is below the number of recorded requests of that
   endpoint, and of its address or installation, that are no older than the window before it.
   */
  lemma RefusedRequestsExceedLimit(limits: map<Endpoint, seq<Config>>, longest: nat, margin: nat, actions: seq<Action>, id: RequestId)
    requires var w := Run(Start(limits, longest, margin), actions); id in w.requests && w.requests[id].refused
    ensures var w := Run(Start(limits, longest, margin), actions);
            var q := w.requests[id];
            && q.event.endpoint in limits && q.passed < |limits[q.event.endpoint]|
            && RequestsExceed(w.requests, q.event, limits[q.event.endpoint][q.passed])
  {
    RunRefusesRightly(Start(limits, longest, margin), actions);
    RunKeepsSettings(Start(limits, longest, margin), actions);
  }

  /** A check that finds the limit exceeded refuses for good; one that does not goes on to the next limit. */
  lemma CheckDecides(w: World, id: RequestId, v: World, c: Config)
    requires id in w.requests && w.requests[id].recorded && !w.requests[id].refused && v == Next(w, Check(id))
    requires var r := w.requests[id]; r.passed < |LimitsOf(w, r.event.endpoint)| && c == LimitsOf(w, r.event.endpoint)[r.passed]
    ensures id in v.requests && v.events == w.events
    ensures v.requests[id].passed == w.requests[id].passed + (if v.requests[id].refused then 0 else 1)
    ensures var e := w.requests[id].event;
            match c.scope
            case ByIp => v.requests[id].refused <==>
              |set i | i in w.events && w.events[i].endpoint == e.endpoint && w.events[i].at >= e.at - c.window
                       && (e.ip.None? || w.events[i].ip == e.ip)| > c.maxRequests
            case ByInstallation => v.requests[id].refused <==>
              e.installation.Some?
              && |set i | i in w.events && w.events[i].endpoint == e.endpoint && w.events[i].at >= e.at - c.window
                          && w.events[i].installation == e.installation| > c.maxRequests
  {
    CountedRowsAre(w.events, w.requests[id].event, c);
  }

  lemma CountedRowsAre(events: Events, e: Event, c: Config)
    ensures c.scope.ByIp? ==>
              CountedRows(events, e, c) == (set i | i in events && events[i].endpoint == e.endpoint && events[i].at >= e.at - c.window
                                                    && (e.ip.None? || events[i].ip == e.ip))
    ensures c.scope.ByInstallation? && e.installation.Some? ==>
              CountedRows(events, e, c) == (set i | i in events && events[i].endpoint == e.endpoint && events[i].at >= e.at - c.window
                                                    && events[i].installation == e.installation)
  {
  }

  /** And a request once refused is never checked again. */
  lemma RefusalStands(w: World, a: Action, id: RequestId)
    requires id in w.requests && w.requests[id].refused
    ensures var v := Next(w, a); id in v.requests && v.requests[id].refused && v.requests[id].passed == w.requests[id].passed
  {
  }

  // ---------------------------------------------------------------- why clocks must stay within the margin

  /** One request per window of the given length. */
  function OneAtATime(window: nat): map<Endpoint, seq<Config>> { map["e" := [Config(ByIp, window, 1)]] }

  function EventAt(at: Time): Event { Event("e", Some("a"), None, at) }

  function Solo(id: RequestId, at: Time): seq<Action> { [Arrive(id, EventAt(at)), Record(id), Check(id)] }

  lemma {:induction false} RunAppend(w: World, xs: seq<Action>, ys: seq<Action>)
    ensures Run(w, xs + ys) == Run(Run(w, xs), ys)
    decreases |ys|
  {
    if ys == [] {
      assert xs + ys == xs;
    } else {
      assert (xs + ys)[..|xs + ys| - 1] == xs + ys[..|ys| - 1];
      RunAppend(w, xs, ys[..|ys| - 1]);
    }
  }

  lemma RunThree(w: World, a: Action, b: Action, c: Action)
    ensures Run(w, [a, b, c][..0]) == w && Run(w, [a, b, c][..1]) == Next(w, a)
    ensures Run(w, [a, b, c][..2]) == Next(Next(w, a), b)
    ensures Run(w, [a, b, c]) == Next(Next(Next(w, a), b), c)
  {
    assert [a, b, c][..2] == [a, b] && [a, b][..1] == [a] && [a, b, c][..1] == [a] && [a][..0] == [] && [a, b, c][..0] == [];
  }

  lemma ArriveAndRecord(w: World, id: RequestId, at: Time)
    requires id !in w.requests && w.events == map[]
    ensures Next(Next(w, Arrive(id, EventAt(at))), Record(id))
         == w.(events := map[id := EventAt(at)], requests := w.requests[id := Progress(EventAt(at), true, 0, false)])
  {
  }

  lemma CheckAlone(w: World, id: RequestId, at: Time, window: nat)
    requires w.limits == OneAtATime(window) && w.events == map[id := EventAt(at)]
    requires id in w.requests && w.requests[id] == Progress(EventAt(at), true, 0, false)
    ensures Next(w, Check(id)) == w.(requests := w.requests[id := Progress(EventAt(at), true, 1, false)])
  {
    assert CountedRows(w.events, EventAt(at), Config(ByIp, window, 1)) == {id};
    assert LimitsOf(w, "e") == [Config(ByIp, window, 1)];
  }

  /** Arrive, record and check in one go, for a request that meets no event. */
  lemma SoloRequestPasses(w: World, id: RequestId, at: Time, window: nat, lag: nat)
    requires w.limits == OneAtATime(window) && id !in w.requests && w.events == map[]
    requires w.swept.Some? ==> at >= w.swept.value - lag
    ensures Run(w, Solo(id, at)) == w.(events := map[id := EventAt(at)],
                                       requests := w.requests[id := Progress(EventAt(at), true, 1, false)])
    ensures LagsAtMost(w, Solo(id, at), lag)
  {
    var recorded := w.(events := map[id := EventAt(at)], requests := w.requests[id := Progress(EventAt(at), true, 0, false)]);
    RunThree(w, Arrive(id, EventAt(at)), Record(id), Check(id));
    ArriveAndRecord(w, id, at);
    CheckAlone(recorded, id, at, window);
    assert recorded.requests[id := Progress(EventAt(at), true, 1, false)] == w.requests[id := Progress(EventAt(at), true, 1, false)];
    forall n | 0 <= n < 3 ensures Lags(Run(w, Solo(id, at)[..n]), Solo(id, at)[n], lag) {
      assert n == 2 ==> Run(w, Solo(id, at)[..n]) == recorded;
    }
  }

  lemma LagsAppend(w: World, xs: seq<Action>, ys: seq<Action>, lag: nat)
    requires LagsAtMost(w, xs, lag) && LagsAtMost(Run(w, xs), ys, lag)
    ensures LagsAtMost(w, xs + ys, lag)
  {
    forall n | 0 <= n < |xs + ys| ensures Lags(Run(w, (xs + ys)[..n]), (xs + ys)[n], lag) {
      if n < |xs| {
        assert (xs + ys)[..n] == xs[..n];
      } else {
        assert (xs + ys)[..n] == xs + ys[..n - |xs|];
        RunAppend(w, xs, ys[..n - |xs|]);
      }
    }
  }

  lemma SweepForgets(w: World, now: Time)
    requires w.swept == None && forall i | i in w.events :: w.events[i].at < now - w.margin - w.longest
    ensures Run(w, [Retain(now)]) == w.(events := map[], swept := Some(now))
    ensures forall lag: nat :: LagsAtMost(w, [Retain(now)], lag)
  {
    assert [Retain(now)][..0] == [];
    assert Next(w, Retain(now)).events == map[];
  }

  /**
   A request, a sweep just ahead of what it keeps of it, and a second request whose clock lags that
   sweep by one more than the margin: both pass a limit of one in a window as long as retention keeps.
   */
  lemma LaggingClockBreaksLimit(longest: nat, margin: nat) returns (actions: seq<Action>)
    ensures LagsAtMost(Start(OneAtATime(longest), longest, margin), actions, margin + 1)
    ensures !WindowsHold(Run(Start(OneAtATime(longest), longest, margin), actions))
  {
    var w := Start(OneAtATime(longest), longest, margin);
    var now := margin + longest + 1;
    var first, sweep, second := Solo(0, 0), [Retain(now)], Solo(1, longest);
    actions := first + sweep + second;
    SoloRequestPasses(w, 0, 0, longest, margin + 1);
    var passed := Run(w, first);
    SweepForgets(passed, now);
    var swept := passed.(events := map[], swept := Some(now));
    SoloRequestPasses(swept, 1, longest, longest, margin + 1);
    RunAppend(w, first, sweep);
    RunAppend(w, first + sweep, second);
    LagsAppend(w, first, sweep, margin + 1);
    LagsAppend(w, first + sweep, second, margin + 1);
    BothPassed(Run(swept, second), longest);
  }

  lemma BothPassed(v: World, longest: nat)
    requires v.limits == OneAtATime(longest) && v.longest == longest
    requires v.requests == map[0 := Progress(EventAt(0), true, 1, false), 1 := Progress(EventAt(longest), true, 1, false)]
    ensures !WindowsHold(v)
  {
    assert PassedIn(v, "e", 0, "a", 0) == {0, 1};
    assert LimitsOf(v, "e")[0] == Config(ByIp, longest, 1);
  }

  /**
   The margin is exact: with any settings of retention, the limits hold in every run whose checking
   clocks lag the sweeps before them by at most `lag`, exactly when `lag` is at most the margin.
   */
  lemma LimitsHoldExactlyWithinMargin(longest: nat, margin: nat, lag: nat)
    ensures (forall limits, actions | LagsAtMost(Start(limits, longest, margin), actions, lag) ::
               WindowsHold(Run(Start(limits, longest, margin), actions)))
            <==> lag <= margin
  {
    if lag <= margin {
      forall limits, actions | LagsAtMost(Start(limits, longest, margin), actions, lag)
        ensures WindowsHold(Run(Start(limits, longest, margin), actions))
      {
        LagsWeaken(Start(limits, longest, margin), actions, lag, margin);
        WindowsHoldOverRuns(limits, longest, margin, actions);
      }
    } else {
      var actions := LaggingClockBreaksLimit(longest, margin);
      LagsWeaken(Start(OneAtATime(longest), longest, margin), actions, margin + 1, lag);
    }
  }

  lemma LagsWeaken(w: World, actions: seq<Action>, lag: nat, more: nat)
    requires LagsAtMost(w, actions, lag) && lag <= more
    ensures LagsAtMost(w, actions, more)
  {
    forall n | 0 <= n < |actions| ensures Lags(Run(w, actions[..n]), actions[n], more) {
      assert Lags(Run(w, actions[..n]), actions[n], lag);
    }
  }

  // ---------------------------------------------------------------- checkEndpointRateLimit

  datatype Decision = Decision(limit: nat, retryAfter: int)

  class RequestLog {
    var events: Events

    /** SELECT MIN(observed_at) over the counted rows. */
    method Oldest(rows: set<RequestId>) returns (oldest: Time)
      requires rows != {} && rows <= events.Keys
      ensures exists i :: i in rows && events[i].at == oldest
      ensures forall i :: i in rows ==> oldest <= events[i].at
    {
      var i :| i in rows;
      oldest := events[i].at;
      var todo := rows - {i};
      while todo != {}
        invariant todo <= rows
        invariant exists i :: i in rows && events[i].at == oldest
        invariant forall i :: i in rows && i !in todo ==> oldest <= events[i].at
        decreases |todo|
      {
        var j :| j in todo;
        todo := todo - {j};
        if events[j].at < oldest { oldest := events[j].at; }
      }
    }

    /**
     The loop over the limits of an endpoint: it refuses at the first limit that is exceeded, and the
     delay it gives is the one after which the oldest counted event has left the window.
     */
    method CheckEndpointRateLimit(e: Event, limits: seq<Config>) returns (decision: Option<Decision>)
      ensures decision.None? <==> forall k :: 0 <= k < |limits| ==> Passes(events, e, limits[k])
      ensures decision.Some? ==>
                var d := decision.value;
                && d.limit < |limits| && !Passes(events, e, limits[d.limit])
                && (forall k :: 0 <= k < d.limit ==> Passes(events, e, limits[k]))
                && (exists i :: i in CountedRows(events, e, limits[d.limit])
                      && d.retryAfter == events[i].at + limits[d.limit].window - e.at >= 0
                      && forall j :: j in CountedRows(events, e, limits[d.limit]) ==> events[i].at <= events[j].at)
      ensures decision.Some? ==>
                var c := limits[decision.value.limit];
                match c.scope
                case ByIp =>
                  |set i | i in events && events[i].endpoint == e.endpoint && events[i].at >= e.at - c.window
                           && (e.ip.None? || events[i].ip == e.ip)| > c.maxRequests
                case ByInstallation =>
                  e.installation.Some?
                  && |set i | i in events && events[i].endpoint == e.endpoint && events[i].at >= e.at - c.window
                              && events[i].installation == e.installation| > c.maxRequests
    {
      for k := 0 to |limits|
        invariant forall j :: 0 <= j < k ==> Passes(events, e, limits[j])
      {
        var c := limits[k];
        if c.scope.ByInstallation? && e.installation.None? { continue; }
        var rows := CountedRows(events, e, c);
        CountedRowsAre(events, e, c);
        if |rows| <= c.maxRequests { continue; }
        var oldest := Oldest(rows);
        var retryAfter := oldest + c.window - e.at;
        return Some(Decision(k, if retryAfter > 0 then retryAfter else 0));
      }
      return None;
    }
  }
}
