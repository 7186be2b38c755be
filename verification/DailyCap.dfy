/**
 The global cap on issuances per UTC day, shared by two sources that enforce it differently: fresh
 Discord issuance counts inside the statement that inserts its row, QQ issuance inserts first, counts
 the other rows and takes its own back when the cap is reached.
 */
module DailyCap {
  import opened Common

  type Time = int
  type IssueRef = string

  const DAY_MS: int := 86_400_000

  function Day(t: Time): int { t / DAY_MS }

  datatype RowKey = DiscordRow(installation: string) | QqRow(subject: string)

  /** `at` is the time the row is counted under; `passed` is history: its request may go on to a key. */
  datatype Row = Row(at: Time, issueRef: IssueRef, passed: bool)

  type Rows = map<RowKey, Row>

  /** The rows a count over the day of `now` sees, with the caller's own QQ row left out. */
  function CountedOn(rows: Rows, day: int, exclude: Option<(string, IssueRef)>): set<RowKey> {
    set k | k in rows && Day(rows[k].at) == day
      && !(exclude.Some? && k == QqRow(exclude.value.0) && rows[k].issueRef == exclude.value.1)
  }

  datatype CapState = CapState(reached: bool, retryAfter: Option<int>, count: nat)

  /** getManagedDailyIssuanceCapState with a window of one day. */
  function CapAt(rows: Rows, now: Time, maxCount: nat, exclude: Option<(string, IssueRef)>): CapState {
    var count := |CountedOn(rows, Day(now), exclude)|;
    var wait := (Day(now) + 1) * DAY_MS - now;
    CapState(count >= maxCount, if count >= maxCount then Some(if wait > 0 then wait else 0) else None, count)
  }

  // ---------------------------------------------------------------- the whole system

  /** A QQ request that has reserved, with its time; a resume that has checked and not yet written. */
  datatype World = World(rows: Rows, requests: map<IssueRef, (string, Time)>, resumes: map<int, (string, Time)>)

  datatype Action =
    | ReserveQq(subject: string, issueRef: IssueRef, now: Time)
    | ReclaimQq(subject: string, seen: IssueRef, issueRef: IssueRef, now: Time)
    | CheckQq(issueRef: IssueRef)
    | ReleaseQq(issueRef: IssueRef)
    | InsertDiscord(installation: string, now: Time)
    | CheckResume(id: int, installation: string, now: Time)
    | WriteResume(id: int)
    | Drop(key: RowKey)

  function Next(w: World, a: Action, maxCount: nat): World {
    match a
    case ReserveQq(subject, ref, now) =>
      if ref in w.requests || QqRow(subject) in w.rows then w
      else w.(rows := w.rows[QqRow(subject) := Row(now, ref, false)], requests := w.requests[ref := (subject, now)])
    case ReclaimQq(subject, seen, ref, now) =>
      if ref in w.requests || QqRow(subject) !in w.rows || w.rows[QqRow(subject)].issueRef != seen then w
      else w.(rows := w.rows[QqRow(subject) := Row(now, ref, false)], requests := w.requests[ref := (subject, now)])
    case CheckQq(ref) =>
      if ref !in w.requests then w
      else
        var (subject, now) := w.requests[ref];
        if CapAt(w.rows, now, maxCount, Some((subject, ref))).reached then w
        else if QqRow(subject) in w.rows && w.rows[QqRow(subject)].issueRef == ref
        then w.(rows := w.rows[QqRow(subject) := w.rows[QqRow(subject)].(passed := true)])
        else w
    case ReleaseQq(ref) =>
      if ref !in w.requests then w
      else
        var key := QqRow(w.requests[ref].0);
        if key in w.rows && w.rows[key].issueRef == ref then w.(rows := w.rows - {key}) else w
    case InsertDiscord(installation, now) =>
      if |CountedOn(w.rows, Day(now), None)| < maxCount
      then w.(rows := w.rows[DiscordRow(installation) := Row(now, "", true)]) else w
    case CheckResume(id, installation, now) =>
      if CapAt(w.rows, now, maxCount, None).reached then w
      else w.(resumes := w.resumes[id := (installation, now)])
    case WriteResume(id) =>
      if id !in w.resumes then w
      else
        var (installation, now) := w.resumes[id];
        w.(rows := w.rows[DiscordRow(installation) := Row(now, "", true)], resumes := w.resumes - {id})
    case Drop(key) => w.(rows := w.rows - {key})
  }

  function Run(w: World, actions: seq<Action>, maxCount: nat): World
    decreases |actions|
  {
    if actions == [] then w else Next(Run(w, actions[..|actions| - 1], maxCount), actions[|actions| - 1], maxCount)
  }

  lemma RunStep(w: World, actions: seq<Action>, n: nat, maxCount: nat)
    requires n < |actions|
    ensures Run(w, actions[..n + 1], maxCount) == Next(Run(w, actions[..n], maxCount), actions[n], maxCount)
  {
    assert actions[..n + 1][..n] == actions[..n];
  }

  const EMPTY := World(map[], map[], map[])

  // ---------------------------------------------------------------- the cap

  function PassedOn(rows: Rows, day: int): set<RowKey> {
    set k | k in rows && rows[k].passed && Day(rows[k].at) == day
  }

  /** The passed rows a resume finds on its day besides its own. */
  function OthersPassed(rows: Rows, installation: string, day: int): set<RowKey> {
    PassedOn(rows, day) - {DiscordRow(installation)}
  }

  /** A resume writes only while fewer than the maximum of other reservations of its day have passed. */
  predicate Room(w: World, a: Action, maxCount: nat) {
    a.WriteResume? && a.id in w.resumes ==>
      var (installation, now) := w.resumes[a.id]; |OthersPassed(w.rows, installation, Day(now))| < maxCount
  }

  ghost predicate RoomInRun(actions: seq<Action>, maxCount: nat) {
    forall n | 0 <= n < |actions| :: Room(Run(EMPTY, actions[..n], maxCount), actions[n], maxCount)
  }

  ghost predicate WithinCap(rows: Rows, maxCount: nat) {
    forall day :: |PassedOn(rows, day)| <= maxCount
  }

  /** What holds in every run: rows and requests agree. */
  ghost predicate Inv(w: World) {
    && (forall ref | ref in w.requests && QqRow(w.requests[ref].0) in w.rows && w.rows[QqRow(w.requests[ref].0)].issueRef == ref ::
          w.rows[QqRow(w.requests[ref].0)].at == w.requests[ref].1)
    && (forall k | k in w.rows && k.QqRow? :: w.rows[k].issueRef in w.requests)
  }

  /** Only the new row may pass or appear, so the count its request saw bounds who has passed with it. */
  lemma OnePassKeepsCap(rows: Rows, after: Rows, key: RowKey, day: int, seen: set<RowKey>, maxCount: nat)
    requires WithinCap(rows, maxCount) && |seen| < maxCount
    requires key in after && after.Keys == rows.Keys + {key} && Day(after[key].at) == day
    requires forall k | k in rows && k != key ::
               after[k] == rows[k] && (rows[k].passed && Day(rows[k].at) == day ==> k in seen)
    ensures WithinCap(after, maxCount)
  {
    forall d ensures |PassedOn(after, d)| <= maxCount {
      assert |PassedOn(rows, d)| <= maxCount;
      PassedAfterOne(rows, after, key, day, seen, d);
      SubsetIsSmaller(PassedOn(after, d), if d == day then seen + {key} else PassedOn(rows, d));
    }
  }

  lemma PassedAfterOne(rows: Rows, after: Rows, key: RowKey, day: int, seen: set<RowKey>, d: int)
    requires key in after && after.Keys == rows.Keys + {key} && Day(after[key].at) == day
    requires forall k | k in rows && k != key ::
               after[k] == rows[k] && (rows[k].passed && Day(rows[k].at) == day ==> k in seen)
    ensures PassedOn(after, d) <= if d == day then seen + {key} else PassedOn(rows, d)
  {
  }

  /** Rows that go, and new rows that have not passed, raise no count of passed ones. */
  lemma FewerPassesKeepCap(rows: Rows, after: Rows, maxCount: nat)
    requires WithinCap(rows, maxCount)
    requires forall k | k in after && after[k].passed :: k in rows && after[k] == rows[k]
    ensures WithinCap(after, maxCount)
  {
    forall d ensures |PassedOn(after, d)| <= maxCount {
      assert |PassedOn(rows, d)| <= maxCount;
      SubsetIsSmaller(PassedOn(after, d), PassedOn(rows, d));
    }
  }

  lemma NextKeepsInv(w: World, a: Action, maxCount: nat)
    requires Inv(w)
    ensures Inv(Next(w, a, maxCount))
  {
  }

  lemma {:induction false} RunKeepsInv(actions: seq<Action>, maxCount: nat)
    ensures Inv(Run(EMPTY, actions, maxCount))
    decreases |actions|
  {
    if actions != [] {
      var n := |actions| - 1;
      RunKeepsInv(actions[..n], maxCount);
      NextKeepsInv(Run(EMPTY, actions[..n], maxCount), actions[n], maxCount);
    }
  }

  lemma CheckKeepsCap(w: World, ref: IssueRef, maxCount: nat, v: World)
    requires Inv(w) && WithinCap(w.rows, maxCount) && v == Next(w, CheckQq(ref), maxCount)
    ensures WithinCap(v.rows, maxCount)
  {
    if v != w {
      var (subject, now) := w.requests[ref];
      OnePassKeepsCap(w.rows, v.rows, QqRow(subject), Day(now), CountedOn(w.rows, Day(now), Some((subject, ref))), maxCount);
    }
  }

  lemma InsertKeepsCap(w: World, a: Action, maxCount: nat, v: World)
    requires WithinCap(w.rows, maxCount) && a.InsertDiscord? && v == Next(w, a, maxCount)
    ensures WithinCap(v.rows, maxCount)
  {
    if v != w {
      OnePassKeepsCap(w.rows, v.rows, DiscordRow(a.installation), Day(a.now), CountedOn(w.rows, Day(a.now), None), maxCount);
    }
  }

  lemma WrittenKeepsCap(rows: Rows, installation: string, now: Time, maxCount: nat)
    requires WithinCap(rows, maxCount) && |OthersPassed(rows, installation, Day(now))| < maxCount
    ensures WithinCap(rows[DiscordRow(installation) := Row(now, "", true)], maxCount)
  {
    var key, seen := DiscordRow(installation), OthersPassed(rows, installation, Day(now));
    var after := rows[key := Row(now, "", true)];
    forall k | k in rows && k != key
      ensures after[k] == rows[k] && (rows[k].passed && Day(rows[k].at) == Day(now) ==> k in seen) {
    }
    OnePassKeepsCap(rows, after, key, Day(now), seen, maxCount);
  }

  lemma WriteKeepsCap(w: World, a: Action, maxCount: nat, v: World)
    requires WithinCap(w.rows, maxCount) && a.WriteResume? && Room(w, a, maxCount) && v == Next(w, a, maxCount)
    ensures WithinCap(v.rows, maxCount)
  {
    if a.id in w.resumes {
      WrittenKeepsCap(w.rows, w.resumes[a.id].0, w.resumes[a.id].1, maxCount);
    }
  }

  lemma NextKeepsCap(w: World, a: Action, maxCount: nat, v: World)
    requires Inv(w) && WithinCap(w.rows, maxCount) && Room(w, a, maxCount) && v == Next(w, a, maxCount)
    ensures WithinCap(v.rows, maxCount)
  {
    if a.CheckQq? {
      CheckKeepsCap(w, a.issueRef, maxCount, v);
    } else if a.InsertDiscord? {
      InsertKeepsCap(w, a, maxCount, v);
    } else if a.WriteResume? {
      WriteKeepsCap(w, a, maxCount, v);
    } else {
      FewerPassesKeepCap(w.rows, v.rows, maxCount);
    }
  }

  lemma {:induction false} RunKeepsCap(actions: seq<Action>, maxCount: nat, n: nat)
    requires RoomInRun(actions, maxCount) && n <= |actions|
    ensures WithinCap(Run(EMPTY, actions[..n], maxCount).rows, maxCount)
  {
    if n == 0 {
      assert actions[..0] == [];
      forall day ensures PassedOn(EMPTY.rows, day) == {} {}
    } else {
      RunKeepsCap(actions, maxCount, n - 1);
      RunKeepsInv(actions[..n - 1], maxCount);
      RunStep(EMPTY, actions, n - 1, maxCount);
      NextKeepsCap(Run(EMPTY, actions[..n - 1], maxCount), actions[n - 1], maxCount, Run(EMPTY, actions[..n], maxCount));
    }
  }

  /** A resume without room for it breaks the cap. */
  lemma WriteWithoutRoomBreaksCap(w: World, a: Action, maxCount: nat, v: World)
    requires !Room(w, a, maxCount) && v == Next(w, a, maxCount)
    ensures !WithinCap(v.rows, maxCount)
  {
    var (installation, now) := w.resumes[a.id];
    var others := OthersPassed(w.rows, installation, Day(now));
    assert PassedOn(v.rows, Day(now)) == others + {DiscordRow(installation)};
    assert |PassedOn(v.rows, Day(now))| == |others| + 1;
  }

  /**
   For every run of fresh Discord and QQ issuance, resumes, releases and losses: no UTC day ever has
   more than the maximum of passed reservations standing, exactly when each resume finds room for
   itself at the moment it writes.
   */
  lemma CapHoldsExactlyWithRoomForResumes(actions: seq<Action>, maxCount: nat)
    ensures (forall n: nat | n <= |actions| :: WithinCap(Run(EMPTY, actions[..n], maxCount).rows, maxCount))
            <==> RoomInRun(actions, maxCount)
  {
    if RoomInRun(actions, maxCount) {
      forall n: nat | n <= |actions| ensures WithinCap(Run(EMPTY, actions[..n], maxCount).rows, maxCount) {
        RunKeepsCap(actions, maxCount, n);
      }
    } else {
      var n: nat :| n < |actions| && !Room(Run(EMPTY, actions[..n], maxCount), actions[n], maxCount);
      RunStep(EMPTY, actions, n, maxCount);
      WriteWithoutRoomBreaksCap(Run(EMPTY, actions[..n], maxCount), actions[n], maxCount,
                                Run(EMPTY, actions[..n + 1], maxCount));
      assert n + 1 <= |actions|;
    }
  }

  /** Without resumes in the run the cap holds unconditionally. */
  lemma CapHolds(actions: seq<Action>, maxCount: nat)
    requires forall a | a in actions :: !a.WriteResume?
    ensures WithinCap(Run(EMPTY, actions, maxCount).rows, maxCount)
  {
    RunKeepsCap(actions, maxCount, |actions|);
    assert actions[..|actions|] == actions;
  }

  // ---------------------------------------------------------------- Discord resumes

  /** A resume whose check passed has room as long as no other request passed on its day in between. */
  lemma UndisturbedResumeHasRoom(before: World, w: World, id: int, installation: string, now: Time, maxCount: nat)
    requires !CapAt(before.rows, now, maxCount, None).reached
    requires id in w.resumes && w.resumes[id] == (installation, now)
    requires OthersPassed(w.rows, installation, Day(now)) <= PassedOn(before.rows, Day(now))
    ensures Room(w, WriteResume(id), maxCount)
  {
    SubsetIsSmaller(OthersPassed(w.rows, installation, Day(now)), CountedOn(before.rows, Day(now), None));
  }

  /** Two resumes that both check before either writes go over a cap of one. */
  lemma ResumesExceedCap() returns (actions: seq<Action>)
    ensures !WithinCap(Run(EMPTY, actions, 1).rows, 1)
  {
    actions := [CheckResume(1, "a", 0), CheckResume(2, "b", 0), WriteResume(1), WriteResume(2)];
    assert actions[..0] == [] && actions[..4] == actions;
    RunStep(EMPTY, actions, 0, 1);
    RunStep(EMPTY, actions, 1, 1);
    RunStep(EMPTY, actions, 2, 1);
    RunStep(EMPTY, actions, 3, 1);
    BothResumesCheck();
    BothResumesWrite();
  }

  const CHECKED := EMPTY.(resumes := map[1 := ("a", 0), 2 := ("b", 0)])

  lemma BothResumesCheck()
    ensures Next(Next(EMPTY, CheckResume(1, "a", 0), 1), CheckResume(2, "b", 0), 1) == CHECKED
  {
    assert CountedOn(map[], 0, None) == {};
  }

  lemma BothResumesWrite()
    ensures !WithinCap(Next(Next(CHECKED, WriteResume(1), 1), WriteResume(2), 1).rows, 1)
  {
    var v := Next(CHECKED, WriteResume(1), 1);
    assert v.rows == map[DiscordRow("a") := Row(0, "", true)] && v.resumes == map[2 := ("b", 0)];
    var u := Next(v, WriteResume(2), 1);
    assert PassedOn(u.rows, 0) == {DiscordRow("a"), DiscordRow("b")};
    assert |PassedOn(u.rows, 0)| == 2;
  }

  /** The advertised delay ends at the next UTC midnight, the first time the count starts afresh. */
  lemma RetryAfterEndsTheDay(rows: Rows, now: Time, maxCount: nat, exclude: Option<(string, IssueRef)>)
    requires CapAt(rows, now, maxCount, exclude).reached
    ensures var wait := CapAt(rows, now, maxCount, exclude).retryAfter.value;
            && wait > 0 && Day(now + wait) == Day(now) + 1
            && forall t :: now <= t < now + wait ==> Day(t) == Day(now)
  {
  }

  // ---------------------------------------------------------------- who is let through

  /** The rows whose time lies in the UTC day of `now`. */
  function SameDay(rows: Rows, now: Time): set<RowKey> {
    var midnight := now - now % 86_400_000;
    set k | k in rows && midnight <= rows[k].at < midnight + 86_400_000
  }

  lemma DayIsInterval(t: Time, now: Time)
    ensures Day(t) == Day(now) <==> now - now % 86_400_000 <= t < now - now % 86_400_000 + 86_400_000
  {
  }

  lemma CountedIsSameDay(rows: Rows, now: Time)
    ensures CountedOn(rows, Day(now), None) == SameDay(rows, now)
  {
    forall k | k in rows ensures k in CountedOn(rows, Day(now), None) <==> k in SameDay(rows, now) {
      DayIsInterval(rows[k].at, now);
    }
  }

  /** The caller's own QQ row is left out, as long as it is still the caller's. */
  lemma OwnRowIsLeftOut(rows: Rows, now: Time, subject: string, ref: IssueRef)
    ensures CountedOn(rows, Day(now), Some((subject, ref))) ==
              if QqRow(subject) in rows && rows[QqRow(subject)].issueRef == ref then SameDay(rows, now) - {QqRow(subject)}
              else SameDay(rows, now)
  {
    CountedIsSameDay(rows, now);
  }

  /** The cap is reached exactly when the day holds as many other reservations as it allows. */
  lemma CapStateIsExact(rows: Rows, now: Time, maxCount: nat, exclude: Option<(string, IssueRef)>)
    ensures var cap := CapAt(rows, now, maxCount, exclude);
            var own := if exclude.Some? && QqRow(exclude.value.0) in rows && rows[QqRow(exclude.value.0)].issueRef == exclude.value.1
                       then {QqRow(exclude.value.0)} else {};
            && cap.count == |SameDay(rows, now) - own|
            && (cap.reached <==> |SameDay(rows, now) - own| >= maxCount) && (cap.retryAfter.Some? <==> cap.reached)
  {
    CountedIsSameDay(rows, now);
    if exclude.Some? {
      OwnRowIsLeftOut(rows, now, exclude.value.0, exclude.value.1);
    }
    assert SameDay(rows, now) - {} == SameDay(rows, now);
  }

  /** A fresh Discord issuance gets its row exactly when the day has room for it, and no other row changes. */
  lemma DiscordIsLetThroughExactlyWithRoom(w: World, installation: string, now: Time, maxCount: nat)
    ensures Next(w, InsertDiscord(installation, now), maxCount) ==
              if |SameDay(w.rows, now)| < maxCount then w.(rows := w.rows[DiscordRow(installation) := Row(now, "", true)]) else w
  {
    CountedIsSameDay(w.rows, now);
  }

  /** The check of a request whose row stands: it passes exactly when the other rows of its day leave room. */
  lemma CheckDecides(w: World, ref: IssueRef, maxCount: nat, v: World)
    requires ref in w.requests && v == Next(w, CheckQq(ref), maxCount)
    requires var key := QqRow(w.requests[ref].0); key in w.rows && w.rows[key].issueRef == ref
    ensures var key := QqRow(w.requests[ref].0);
            v == if |SameDay(w.rows, w.requests[ref].1) - {key}| < maxCount
                 then w.(rows := w.rows[key := w.rows[key].(passed := true)]) else w
  {
    OwnRowIsLeftOut(w.rows, w.requests[ref].1, w.requests[ref].0, ref);
  }

  lemma OthersOfTheDay(rows: Rows, key: RowKey, row: Row, now: Time)
    ensures SameDay(rows[key := row], now) - {key} == SameDay(rows, now) - {key}
    ensures key !in rows ==> SameDay(rows, now) - {key} == SameDay(rows, now) && rows[key := row] - {key} == rows
  {
  }

  /** A reservation that is not passed is taken back by its own request. */
  lemma ReservationIsTakenBack(w: World, ref: IssueRef, maxCount: nat)
    requires ref in w.requests && QqRow(w.requests[ref].0) in w.rows && w.rows[QqRow(w.requests[ref].0)].issueRef == ref
    ensures Next(w, ReleaseQq(ref), maxCount) == w.(rows := w.rows - {QqRow(w.requests[ref].0)})
  {
  }

  lemma ReservationIsMade(w: World, subject: string, ref: IssueRef, now: Time, maxCount: nat)
    requires ref !in w.requests && QqRow(subject) !in w.rows
    ensures Next(w, ReserveQq(subject, ref, now), maxCount)
         == w.(rows := w.rows[QqRow(subject) := Row(now, ref, false)], requests := w.requests[ref := (subject, now)])
  {
  }

  /** The check and the release of a reservation that stands among `others`. */
  lemma ReservationPassesOrGoes(others: Rows, reserved: World, subject: string, ref: IssueRef, now: Time, maxCount: nat, v: World)
    requires QqRow(subject) !in others && reserved.rows == others[QqRow(subject) := Row(now, ref, false)]
    requires ref in reserved.requests && reserved.requests[ref] == (subject, now) && v == Next(reserved, CheckQq(ref), maxCount)
    ensures v.rows == others[QqRow(subject) := Row(now, ref, |SameDay(others, now)| < maxCount)]
    ensures |SameDay(others, now)| >= maxCount ==> Next(v, ReleaseQq(ref), maxCount).rows == others
  {
    CheckDecides(reserved, ref, maxCount, v);
    OthersOfTheDay(others, QqRow(subject), Row(now, ref, false), now);
    if |SameDay(others, now)| >= maxCount { ReservationIsTakenBack(v, ref, maxCount); }
  }

  /** A request whose subject has no row: its row stands and has passed exactly when the day had room before it came. */
  lemma QqIsLetThroughExactlyWithRoom(w: World, subject: string, ref: IssueRef, now: Time, maxCount: nat, reserved: World, v: World)
    requires ref !in w.requests && QqRow(subject) !in w.rows
    requires reserved == Next(w, ReserveQq(subject, ref, now), maxCount) && v == Next(reserved, CheckQq(ref), maxCount)
    ensures v.rows == w.rows[QqRow(subject) := Row(now, ref, |SameDay(w.rows, now)| < maxCount)]
    ensures |SameDay(w.rows, now)| >= maxCount ==> Next(v, ReleaseQq(ref), maxCount).rows == w.rows
  {
    ReservationIsMade(w, subject, ref, now, maxCount);
    ReservationPassesOrGoes(w.rows, reserved, subject, ref, now, maxCount, v);
  }

  /** The same for a request that takes a stale row over: the row it takes does not count against it. */
  lemma TakenOverRowDoesNotCount(w: World, subject: string, seen: IssueRef, ref: IssueRef, now: Time, maxCount: nat, taken: World, v: World)
    requires ref !in w.requests && QqRow(subject) in w.rows && w.rows[QqRow(subject)].issueRef == seen
    requires taken == Next(w, ReclaimQq(subject, seen, ref, now), maxCount) && v == Next(taken, CheckQq(ref), maxCount)
    ensures v.rows == w.rows[QqRow(subject) := Row(now, ref, |SameDay(w.rows, now) - {QqRow(subject)}| < maxCount)]
  {
    CheckDecides(taken, ref, maxCount, v);
    OthersOfTheDay(w.rows, QqRow(subject), Row(now, ref, false), now);
  }

  /** A row that is there, or is not the one that was seen, is neither inserted over nor taken over. */
  lemma RowsOfOthersStay(w: World, subject: string, seen: IssueRef, ref: IssueRef, now: Time, maxCount: nat)
    ensures QqRow(subject) in w.rows ==> Next(w, ReserveQq(subject, ref, now), maxCount) == w
    ensures QqRow(subject) !in w.rows || w.rows[QqRow(subject)].issueRef != seen ==>
              Next(w, ReclaimQq(subject, seen, ref, now), maxCount) == w
    ensures ref in w.requests && QqRow(w.requests[ref].0) in w.rows && w.rows[QqRow(w.requests[ref].0)].issueRef != ref ==>
              Next(w, ReleaseQq(ref), maxCount) == w && Next(w, CheckQq(ref), maxCount) == w
  {
  }

  /** A resume of Discord issuance writes its row exactly when the day had room at its check. */
  lemma ResumeIsLetThroughExactlyWithRoom(w: World, id: int, installation: string, now: Time, maxCount: nat, checked: World, v: World)
    requires id !in w.resumes
    requires checked == Next(w, CheckResume(id, installation, now), maxCount) && v == Next(checked, WriteResume(id), maxCount)
    ensures v == if |SameDay(w.rows, now)| < maxCount then w.(rows := w.rows[DiscordRow(installation) := Row(now, "", true)]) else w
  {
    CountedIsSameDay(w.rows, now);
  }

  // ---------------------------------------------------------------- the tables, updated in place

  lemma CountedOneMore(target: set<RowKey>, todo: set<RowKey>, k: RowKey)
    requires k in todo
    ensures |target - (todo - {k})| == |target - todo| + if k in target then 1 else 0
  {
    assert target - (todo - {k}) == if k in target then (target - todo) + {k} else target - todo;
  }

  class IssuanceTables {
    var rows: Rows

    /** The two COUNT queries, row by row. */
    method CountRows(day: int, exclude: Option<(string, IssueRef)>) returns (count: nat)
      ensures count == |CountedOn(rows, day, exclude)|
    {
      count := 0;
      var todo := rows.Keys;
      ghost var target := CountedOn(rows, day, exclude);
      while todo != {}
        invariant todo <= rows.Keys
        invariant count == |target - todo|
        decreases |todo|
      {
        var k :| k in todo;
        CountedOneMore(target, todo, k);
        if Day(rows[k].at) == day && !(exclude.Some? && k == QqRow(exclude.value.0) && rows[k].issueRef == exclude.value.1) {
          count := count + 1;
        }
        todo := todo - {k};
      }
      assert target - todo == target;
    }

    method GetCapState(now: Time, maxCount: Option<nat>, exclude: Option<(string, IssueRef)>) returns (cap: CapState)
      ensures maxCount.None? ==> cap == CapState(false, None, 0)
      ensures maxCount.Some? ==> cap == CapAt(rows, now, maxCount.value, exclude)
    {
      if maxCount.None? { return CapState(false, None, 0); }
      var count := CountRows(Day(now), exclude);
      var wait := (Day(now) + 1) * DAY_MS - now;
      return CapState(count >= maxCount.value, if count >= maxCount.value then Some(if wait > 0 then wait else 0) else None, count);
    }

    /** The reserving half of QQ issuance: insert, count the others, take back when the cap is reached. */
    method ReserveQqUnderCap(subject: string, ref: IssueRef, now: Time, maxCount: Option<nat>) returns (passed: bool)
      requires QqRow(subject) !in rows
      modifies this
      ensures passed <==> maxCount.None? || |CountedOn(old(rows), Day(now), None)| < maxCount.value
      ensures rows == if passed then old(rows)[QqRow(subject) := Row(now, ref, true)] else old(rows)
    {
      rows := rows[QqRow(subject) := Row(now, ref, false)];
      var cap := GetCapState(now, maxCount, Some((subject, ref)));
      assert CountedOn(rows, Day(now), Some((subject, ref))) == CountedOn(old(rows), Day(now), None);
      if cap.reached {
        rows := rows - {QqRow(subject)};
        return false;
      }
      rows := rows[QqRow(subject) := Row(now, ref, true)];
      return true;
    }
  }
}
