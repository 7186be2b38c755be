/**
 The abuse runtime state of abuse-monitoring.ts: a warning latch and an automatic brake that
 concurrent calls update by compare-and-swap on the sections they change.

 The latch turns out to be a join over the samples, whatever their order and whoever loses a race.
 */
module RuntimeLatch {
  import opened Common

  type Time = int

  datatype Latch = Latch(warning: bool, observedAt: Option<Time>)

  datatype Brake = Brake(active: bool, reason: Option<string>, changedAt: Option<Time>, changedBy: Option<string>)

  datatype State = State(latch: Latch, brake: Brake)

  /** One observation: whether the count is above the warning and the brake threshold. */
  datatype Sample = Sample(at: Time, above: bool, brakes: bool)

  const INITIAL_LATCH := Latch(false, None)

  // ---------------------------------------------------------------- one call's computation

  predicate StaleSample(l: Latch, s: Sample) {
    l.observedAt.Some? && (l.observedAt.value > s.at || (l.observedAt.value == s.at && l.warning && !s.above))
  }

  function AfterSample(l: Latch, s: Sample): Latch {
    if StaleSample(l, s) then l else Latch(s.above, Some(s.at))
  }

  predicate Brakes(b: Brake, s: Sample) {
    s.brakes && !b.active
  }

  function AfterBrake(b: Brake, s: Sample): Brake {
    if Brakes(b, s) then Brake(true, Some("global_threshold"), Some(s.at), Some("system")) else b
  }

  function Computed(before: State, s: Sample): State {
    State(AfterSample(before.latch, s), AfterBrake(before.brake, s))
  }

  /** What a call reports when its write succeeds. */
  datatype Report = Report(warning: bool, brake: bool)

  function Transitions(before: State, s: Sample): Report {
    Report(!StaleSample(before.latch, s) && s.above && !before.latch.warning, Brakes(before.brake, s))
  }

  /** persistBrokerAbuseRuntimeState: only changed sections are guarded and written. */
  predicate CanPersist(current: State, before: State, after: State) {
    && (before.brake != after.brake ==> current.brake == before.brake)
    && (before.latch != after.latch ==> current.latch == before.latch)
  }

  function Persisted(current: State, before: State, after: State): State {
    State(if before.latch != after.latch then after.latch else current.latch,
          if before.brake != after.brake then after.brake else current.brake)
  }

  // ---------------------------------------------------------------- the lattice

  /** Later first, and at the same time a warning above none. */
  predicate Leq(a: Latch, b: Latch) {
    || a == b
    || a == INITIAL_LATCH
    || (a.observedAt.Some? && b.observedAt.Some?
        && (a.observedAt.value < b.observedAt.value
            || (a.observedAt == b.observedAt && (a.warning ==> b.warning))))
  }

  /** The states the latch can be in: no warning without an observation. */
  predicate Observed(l: Latch) {
    l.observedAt.None? ==> !l.warning
  }

  function Point(s: Sample): Latch { Latch(s.above, Some(s.at)) }

  lemma LeqIsAnOrder(a: Latch, b: Latch, c: Latch)
    requires Observed(a) && Observed(b) && Observed(c)
    ensures Leq(a, a) && (Leq(a, b) && Leq(b, a) ==> a == b) && (Leq(a, b) && Leq(b, c) ==> Leq(a, c)) && (Leq(a, b) || Leq(b, a))
  {
  }

  /** Applying a sample is the join with its point. */
  lemma SampleIsJoin(l: Latch, s: Sample, upper: Latch)
    requires Observed(l) && Observed(upper)
    ensures Observed(AfterSample(l, s))
    ensures Leq(l, AfterSample(l, s)) && Leq(Point(s), AfterSample(l, s))
    ensures Leq(l, upper) && Leq(Point(s), upper) ==> Leq(AfterSample(l, s), upper)
  {
  }

  function Joined(samples: seq<Sample>): Latch {
    if samples == [] then INITIAL_LATCH else AfterSample(Joined(samples[..|samples| - 1]), samples[|samples| - 1])
  }

  /** The joined latch is the greatest sample: one of them, and above them all. */
  lemma {:induction false} JoinedIsMaximum(samples: seq<Sample>)
    ensures Observed(Joined(samples))
    ensures forall s | s in samples :: Leq(Point(s), Joined(samples))
    ensures samples != [] ==> exists s :: s in samples && Point(s) == Joined(samples)
    ensures samples == [] ==> Joined(samples) == INITIAL_LATCH
    decreases |samples|
  {
    if samples != [] {
      var n := |samples| - 1;
      var prefix, last := samples[..n], samples[n];
      JoinedIsMaximum(prefix);
      SampleIsJoin(Joined(prefix), last, Joined(samples));
      forall s | s in samples ensures Leq(Point(s), Joined(samples)) {
        if s in prefix { LeqIsAnOrder(Point(s), Joined(prefix), Joined(samples)); }
      }
      if Joined(samples) == Joined(prefix) && prefix != [] {
        var s :| s in prefix && Point(s) == Joined(prefix);
        assert s in samples;
      } else {
        assert Point(last) == Joined(samples);
      }
    }
  }

  lemma NonEmptyHasMember(samples: seq<Sample>)
    ensures samples != [] ==> exists s :: s in samples
  {
    if samples != [] { assert samples[0] in samples; }
  }

  /** Any two orders of the same samples, with any repetitions, leave the same latch. */
  lemma OrderDoesNotMatter(a: seq<Sample>, b: seq<Sample>)
    requires forall s :: s in a <==> s in b
    ensures Joined(a) == Joined(b)
  {
    JoinedIsMaximum(a);
    JoinedIsMaximum(b);
    if a == [] {
      NonEmptyHasMember(b);
    } else {
      assert a[0] in a && a[0] in b;
      var s :| s in a && Point(s) == Joined(a);
      var t :| t in b && Point(t) == Joined(b);
      assert Leq(Point(s), Joined(b)) && Leq(Point(t), Joined(a));
      LeqIsAnOrder(Joined(a), Joined(b), Joined(b));
    }
  }

  // ---------------------------------------------------------------- concurrent calls

  const MAX_ATTEMPTS: nat := 3

  /** A call between its read and its compare-and-swap, with the attempts it has used. */
  datatype Call = Call(sample: Sample, before: State, attempts: nat)

  /** `applied`, `warnings` and `brakings` are history: samples persisted, and flips with their reporters. */
  datatype World = World(
    state: State, calls: map<int, Call>, applied: seq<Sample>,
    warningFlips: nat, warningReports: nat, brakeFlips: nat, brakeReports: nat)

  datatype Action =
    | Read(id: int, sample: Sample)      // begin a call
    | Swap(id: int)                      // its compare-and-swap; on failure it reads again, three times in all
    | SetBrake(brake: Brake)             // an operator
    | Die(id: int)

  function Flips(before: bool, after: bool): nat { if !before && after then 1 else 0 }

  function Next(w: World, a: Action): World {
    match a
    case Read(id, sample) => if id in w.calls then w else w.(calls := w.calls[id := Call(sample, w.state, 0)])
    case Swap(id) =>
      if id !in w.calls then w
      else
        var k := w.calls[id];
        var after := Computed(k.before, k.sample);
        if CanPersist(w.state, k.before, after) then
          var state, report := Persisted(w.state, k.before, after), Transitions(k.before, k.sample);
          World(state, w.calls - {id}, w.applied + [k.sample],
                w.warningFlips + Flips(w.state.latch.warning, state.latch.warning),
                w.warningReports + (if report.warning then 1 else 0),
                w.brakeFlips + Flips(w.state.brake.active, state.brake.active),
                w.brakeReports + (if report.brake then 1 else 0))
        else if k.attempts + 1 < MAX_ATTEMPTS then w.(calls := w.calls[id := k.(before := w.state, attempts := k.attempts + 1)])
        else w.(calls := w.calls - {id})
    case SetBrake(brake) => w.(state := w.state.(brake := brake))
    case Die(id) => w.(calls := w.calls - {id})
  }

  function Run(w: World, actions: seq<Action>): World
    decreases |actions|
  {
    if actions == [] then w else Run(Next(w, actions[0]), actions[1..])
  }

  function Start(brake: Brake): World {
    World(State(INITIAL_LATCH, brake), map[], [], 0, 0, 0, 0)
  }

  ghost predicate Inv(w: World) {
    && w.state.latch == Joined(w.applied)
    && Observed(w.state.latch)
    && (forall id | id in w.calls :: Observed(w.calls[id].before.latch) && Leq(w.calls[id].before.latch, w.state.latch))
    && w.warningFlips == w.warningReports
    && w.brakeFlips == w.brakeReports
  }

  /** A successful swap joins the sample into the latch as it now is, whatever the call had read. */
  lemma SwapJoins(current: State, before: State, s: Sample)
    requires Observed(current.latch) && Observed(before.latch) && Leq(before.latch, current.latch)
    requires CanPersist(current, before, Computed(before, s))
    ensures Persisted(current, before, Computed(before, s)).latch == AfterSample(current.latch, s)
  {
    SampleIsJoin(before.latch, s, current.latch);
    SampleIsJoin(current.latch, s, current.latch);
    LeqIsAnOrder(Point(s), current.latch, AfterSample(current.latch, s));
  }

  /** It reports a flip exactly when the persisted flag goes from false to true. */
  lemma SwapReportsFlips(current: State, before: State, s: Sample)
    requires CanPersist(current, before, Computed(before, s))
    ensures var next := Persisted(current, before, Computed(before, s));
            && (Transitions(before, s).warning <==> !current.latch.warning && next.latch.warning)
            && (Transitions(before, s).brake <==> !current.brake.active && next.brake.active)
  {
  }

  lemma JoinedOneMore(applied: seq<Sample>, s: Sample)
    ensures Joined(applied + [s]) == AfterSample(Joined(applied), s)
  {
    assert (applied + [s])[..|applied|] == applied;
  }

  /** A swap that succeeds: the latch joins the sample, and its reports are the flips. */
  lemma SuccessKeepsInv(w: World, id: int, v: World)
    requires Inv(w) && id in w.calls && v == Next(w, Swap(id))
    requires CanPersist(w.state, w.calls[id].before, Computed(w.calls[id].before, w.calls[id].sample))
    ensures Inv(v)
  {
    var k := w.calls[id];
    SwapJoins(w.state, k.before, k.sample);
    SwapReportsFlips(w.state, k.before, k.sample);
    JoinedOneMore(w.applied, k.sample);
    SampleIsJoin(w.state.latch, k.sample, w.state.latch);
    assert v.applied == w.applied + [k.sample] && v.state.latch == AfterSample(w.state.latch, k.sample);
    forall i | i in v.calls ensures Observed(v.calls[i].before.latch) && Leq(v.calls[i].before.latch, v.state.latch) {
      LeqIsAnOrder(v.calls[i].before.latch, w.state.latch, v.state.latch);
    }
  }

  lemma FailureKeepsInv(w: World, id: int, v: World)
    requires Inv(w) && id in w.calls && v == Next(w, Swap(id))
    requires !CanPersist(w.state, w.calls[id].before, Computed(w.calls[id].before, w.calls[id].sample))
    ensures Inv(v)
  {
    LeqIsAnOrder(w.state.latch, w.state.latch, w.state.latch);
  }

  lemma NextKeepsInv(w: World, a: Action)
    requires Inv(w)
    ensures Inv(Next(w, a))
  {
    match a {
      case Read(_, _) => LeqIsAnOrder(w.state.latch, w.state.latch, w.state.latch);
      case Swap(id) =>
        if id in w.calls {
          var k := w.calls[id];
          if CanPersist(w.state, k.before, Computed(k.before, k.sample)) {
            SuccessKeepsInv(w, id, Next(w, a));
          } else {
            FailureKeepsInv(w, id, Next(w, a));
          }
        }
      case SetBrake(_) =>
      case Die(_) =>
    }
  }

  lemma {:induction false} RunKeepsInv(w: World, actions: seq<Action>)
    requires Inv(w)
    ensures Inv(Run(w, actions))
    decreases |actions|
  {
    if actions != [] {
      NextKeepsInv(w, actions[0]);
      RunKeepsInv(Next(w, actions[0]), actions[1..]);
    }
  }

  /**
   Whatever races are lost, the latch is the greatest of the samples whose calls succeeded, and every
   persisted flip of the latch or of the automatic brake was reported by exactly one call.
   */
  lemma LatchIsMaximumOfAppliedSamples(brake: Brake, actions: seq<Action>)
    ensures var w := Run(Start(brake), actions);
            && (w.applied == [] ==> w.state.latch == INITIAL_LATCH)
            && (w.applied != [] ==> exists s :: s in w.applied && Point(s) == w.state.latch)
            && (forall s | s in w.applied :: Leq(Point(s), w.state.latch))
            && w.warningReports == w.warningFlips && w.brakeReports == w.brakeFlips
  {
    RunKeepsInv(Start(brake), actions);
    JoinedIsMaximum(Run(Start(brake), actions).applied);
  }

  // ---------------------------------------------------------------- what one call does

  /** The latch after a sample: a later one decides, an earlier one is ignored, and at the same time a warning stays. */
  lemma SampleDecides(l: Latch, s: Sample)
    ensures l.observedAt.None? || l.observedAt.value < s.at ==> AfterSample(l, s) == Latch(s.above, Some(s.at))
    ensures l.observedAt.Some? && l.observedAt.value == s.at ==> AfterSample(l, s) == Latch(l.warning || s.above, Some(s.at))
    ensures l.observedAt.Some? && l.observedAt.value > s.at ==> AfterSample(l, s) == l
  {
  }

  /** The automatic brake goes on exactly with a sample above its threshold, unless it was already on. */
  lemma BrakeDecides(b: Brake, s: Sample)
    ensures AfterBrake(b, s).active <==> b.active || s.brakes
    ensures b.active || !s.brakes ==> AfterBrake(b, s) == b
    ensures !b.active && s.brakes ==> AfterBrake(b, s) == Brake(true, Some("global_threshold"), Some(s.at), Some("system"))
  {
  }

  /** A call whose state nobody has changed since it read: it takes effect, at whatever attempt. */
  lemma UnrivalledSwapTakesEffect(w: World, id: int, v: World)
    requires id in w.calls && w.calls[id].before == w.state && v == Next(w, Swap(id))
    ensures var s, l, b := w.calls[id].sample, w.state.latch, w.state.brake;
            && v.state == State(AfterSample(l, s), AfterBrake(b, s))
            && v.calls == w.calls - {id} && v.applied == w.applied + [s]
            && v.warningReports == w.warningReports + (if !l.warning && v.state.latch.warning then 1 else 0)
            && v.brakeReports == w.brakeReports + (if !b.active && s.brakes then 1 else 0)
  {
  }

  /** A call that nobody disturbs reads, and takes effect with its first swap. */
  lemma UndisturbedCallTakesEffect(w: World, id: int, s: Sample, begun: World, v: World)
    requires id !in w.calls && begun == Next(w, Read(id, s)) && v == Next(begun, Swap(id))
    ensures v.applied == w.applied + [s] && v.calls == w.calls
    ensures v.state.brake.active <==> w.state.brake.active || s.brakes
    ensures w.state.latch.observedAt.None? || w.state.latch.observedAt.value < s.at ==> v.state.latch == Latch(s.above, Some(s.at))
    ensures w.state.latch.observedAt == Some(s.at) ==> v.state.latch == Latch(w.state.latch.warning || s.above, Some(s.at))
    ensures w.state.latch.observedAt.Some? && w.state.latch.observedAt.value > s.at ==> v.state.latch == w.state.latch
  {
    UnrivalledSwapTakesEffect(begun, id, v);
    SampleDecides(w.state.latch, s);
  }

  /** The call lost its race: a section that it would change is not as it read it. */
  predicate Beaten(current: State, before: State, s: Sample) {
    || (AfterBrake(before.brake, s) != before.brake && current.brake != before.brake)
    || (AfterSample(before.latch, s) != before.latch && current.latch != before.latch)
  }

  /** A lost race changes nothing but the call, which reads again until its third loss. */
  lemma BeatenSwapReadsAgain(w: World, id: int, v: World)
    requires id in w.calls && Beaten(w.state, w.calls[id].before, w.calls[id].sample) && v == Next(w, Swap(id))
    ensures v.state == w.state && v.applied == w.applied && v.brakeReports == w.brakeReports && v.warningReports == w.warningReports
    ensures v.calls == if w.calls[id].attempts < 2 then w.calls[id := Call(w.calls[id].sample, w.state, w.calls[id].attempts + 1)]
                       else w.calls - {id}
  {
  }

  /** A swap that is not beaten takes effect; the brake it had read on may have been released since. */
  lemma SwapTakesEffectUnlessBeaten(w: World, id: int, v: World)
    requires id in w.calls && !Beaten(w.state, w.calls[id].before, w.calls[id].sample) && v == Next(w, Swap(id))
    ensures v.applied == w.applied + [w.calls[id].sample] && v.calls == w.calls - {id}
    ensures var s, before := w.calls[id].sample, w.calls[id].before;
            && (v.state.brake.active <==> w.state.brake.active || (s.brakes && !before.brake.active))
            && (v.state.brake != w.state.brake ==>
                  s.brakes && v.state.brake == Brake(true, Some("global_threshold"), Some(s.at), Some("system")))
  {
  }

  lemma CallsBegin(w: World, id: int, s: Sample)
    ensures Next(w, Read(id, s)) == if id in w.calls then w else w.(calls := w.calls[id := Call(s, w.state, 0)])
  {
  }

  /** No call is at a fourth attempt. */
  lemma {:induction false} AtMostThreeAttempts(w: World, actions: seq<Action>, id: int)
    requires forall i | i in w.calls :: w.calls[i].attempts < 3
    ensures id in Run(w, actions).calls ==> Run(w, actions).calls[id].attempts < 3
    decreases |actions|
  {
    if actions != [] { AtMostThreeAttempts(Next(w, actions[0]), actions[1..], id); }
  }

  // ---------------------------------------------------------------- the retry loop

  /** What attempt `k` reads, when each attempt leaves what its rivals made of the state. */
  function ReadAt(first: State, rivals: seq<State>, k: nat): State
    requires k <= |rivals|
  {
    if k == 0 then first else rivals[k - 1]
  }

  class RuntimeState {
    var state: State

    /** The compare-and-swap UPDATE. */
    method Persist(before: State, after: State) returns (ok: bool)
      modifies this
      ensures ok == CanPersist(old(state), before, after)
      ensures state == if ok then Persisted(old(state), before, after) else old(state)
    {
      ok := true;
      if before.brake != after.brake && state.brake != before.brake { return false; }
      if before.latch != after.latch && state.latch != before.latch { return false; }
      if before.latch != after.latch { state := state.(latch := after.latch); }
      if before.brake != after.brake { state := state.(brake := after.brake); }
    }

    /**
     applyImmediateRuntimeStateChanges; `rivals[k]` is what other writers make of the state between
     the read and the write of attempt k, and may only move the latch upwards.
     */
    method ApplyImmediateChanges(s: Sample, rivals: seq<State>) returns (applied: bool, report: Report)
      requires |rivals| == MAX_ATTEMPTS && Observed(state.latch)
      requires forall k | 0 <= k < |rivals| :: Observed(rivals[k].latch)
      requires Leq(state.latch, rivals[0].latch) && Leq(rivals[0].latch, rivals[1].latch) && Leq(rivals[1].latch, rivals[2].latch)
      modifies this
      ensures applied ==>
                exists k :: 0 <= k < |rivals|
                  && state.latch == AfterSample(rivals[k].latch, s)
                  && (report.warning <==> !rivals[k].latch.warning && state.latch.warning)
                  && (report.brake <==> !rivals[k].brake.active && state.brake.active)
      ensures applied ==>
                exists k :: 0 <= k < |rivals| && !Beaten(rivals[k], ReadAt(old(state), rivals, k), s)
                  && (state.brake.active <==> rivals[k].brake.active || (s.brakes && !ReadAt(old(state), rivals, k).brake.active))
      ensures !applied ==> forall k :: 0 <= k < |rivals| ==> Beaten(rivals[k], ReadAt(old(state), rivals, k), s)
      ensures !applied ==> state == rivals[|rivals| - 1] && report == Report(false, false)
    {
      for k := 0 to MAX_ATTEMPTS
        invariant forall j :: 0 <= j < k ==> Beaten(rivals[j], ReadAt(old(state), rivals, j), s)
        invariant Observed(state.latch) && state == ReadAt(old(state), rivals, k)
      {
        var before := state;
        var after := Computed(before, s);
        state := rivals[k];
        var ok := Persist(before, after);
        if ok {
          assert Leq(before.latch, rivals[k].latch);
          SwapJoins(rivals[k], before, s);
          SwapReportsFlips(rivals[k], before, s);
          return true, Transitions(before, s);
        }
      }
      return false, Report(false, false);
    }
  }
}
