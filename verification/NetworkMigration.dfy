/**
 Runs through the migration of network-identity-migration.ts: requests, key rotations, backfills and
 any number of finalisers, whose statements interleave with all else and may stop after any of them.

 `log` is history: every request ever recorded, as it was written.  The counts of the real table are
 held against it.
 */
module NetworkMigration {
  import opened Common
  import opened NetworkIdentity
  import IpCanonical

  datatype Stage = Purging | ClearingAddresses | ClearingSentinels | Verifying | Switching

  /** One finaliser: the window start of its pending count, and its next statement. */
  datatype Finalizer = Finalizer(start: Time, stage: Stage)

  /**
   The keys that were ever current, oldest first, and when each next one came; `covered` is where
   the window starts that the purges so far were meant to spare.
   */
  datatype World = World(
    events: Events, log: Events, mode: Mode, keys: seq<Key>, rotations: seq<Time>,
    covered: Option<Time>, finalizers: map<nat, Finalizer>)

  /** A statement runs, runs but reports failure, or does not run. */
  datatype Outcome = Done | Unreported | Failed

  datatype Action =
    | Request(id: EventId, mode: Mode, endpoint: string, ip: Option<string>, installation: Option<string>, now: Time)
    | Rotate(next: Key, now: Time)
    | Backfill(rows: set<EventId>)
    | CountPending(finalizer: nat, start: Time, throws: bool)
    | Advance(finalizer: nat, outcome: Outcome)

  /** The key in use and the one before it. */
  function InUse(keys: seq<Key>): Secrets
    requires keys != []
  {
    Secrets(keys[|keys| - 1], if |keys| > 1 then Some(keys[|keys| - 2]) else None)
  }

  function Raised(covered: Option<Time>, t: Time): Option<Time> {
    if covered.None? || covered.value < t then Some(t) else covered
  }

  /** The pending count lets a finaliser through: nothing pending, or the query threw and reads as zero. */
  predicate LetsThrough(w: World, a: Action) {
    a.CountPending? && a.finalizer !in w.finalizers && (a.throws || PendingRows(w.events, a.start) == {})
  }

  /** A request may have read the mode before it was switched, never after. */
  predicate Enabled(w: World, a: Action) {
    match a
    case Request(id, mode, _, ip, installation, _) =>
      id !in w.log && (ip.Some? || installation.Some?) && (mode.Keyed? ==> w.mode.Keyed?) && w.keys != []
    case Backfill(_) => w.keys != []
    case CountPending(_, _, _) => LetsThrough(w, a)
    case Advance(f, _) => f in w.finalizers
    case _ => true
  }

  function Recording(w: World, id: EventId, e: Event): World {
    w.(events := w.events[id := e], log := w.log[id := e])
  }

  /** The next statement of a finaliser; the check before the switch has no effect. */
  function Effect(w: World, f: Finalizer): World {
    match f.stage
    case Purging => w.(events := Purge(w.events), covered := Raised(w.covered, f.start))
    case ClearingAddresses => w.(events := WithoutAddresses(w.events))
    case ClearingSentinels => w.(events := WithoutSentinels(w.events))
    case Verifying => w
    case Switching => w.(mode := Keyed)
  }

  function Following(stage: Stage): Stage {
    match stage
    case Purging => ClearingAddresses
    case ClearingAddresses => ClearingSentinels
    case ClearingSentinels => Verifying
    case _ => Switching
  }

  /** A finaliser goes on only after a statement that reported success, and past the check only on a clean table. */
  predicate GoesOn(w: World, f: Finalizer, outcome: Outcome) {
    && outcome.Done? && !f.stage.Switching?
    && (f.stage.Verifying? ==> forall i | i in w.events :: !Tainted(w.events[i]))
  }

  function Advanced(w: World, name: nat, outcome: Outcome): World
    requires name in w.finalizers
  {
    var f := w.finalizers[name];
    var v := if outcome.Failed? then w else Effect(w, f);
    v.(finalizers := if GoesOn(w, f, outcome) then w.finalizers[name := f.(stage := Following(f.stage))]
                     else w.finalizers - {name})
  }

  function Next(w: World, a: Action): World {
    if !Enabled(w, a) then w
    else
      match a
      case Request(id, mode, endpoint, ip, installation, now) =>
        Recording(w, id, Recorded(mode, endpoint, ip, installation, Some(InUse(w.keys)), now))
      case Rotate(next, now) => w.(keys := w.keys + [next], rotations := w.rotations + [now])
      case Backfill(rows) =>
        w.(events := map i | i in w.events :: if i in rows then Backfilled(w.events[i], InUse(w.keys)) else w.events[i])
      case CountPending(f, start, _) => w.(finalizers := w.finalizers[f := Finalizer(start, Purging)])
      case Advance(f, outcome) => Advanced(w, f, outcome)
  }

  function Run(w: World, actions: seq<Action>): World
    decreases |actions|
  {
    if actions == [] then w else Next(Run(w, actions[..|actions| - 1]), actions[|actions| - 1])
  }

  lemma RunStep(w: World, actions: seq<Action>, n: nat)
    requires n < |actions|
    ensures Run(w, actions[..n + 1]) == Next(Run(w, actions[..n]), actions[n])
  {
    assert actions[..n + 1][..n] == actions[..n];
  }

  lemma RunSnoc(w: World, xs: seq<Action>, a: Action)
    ensures Run(w, xs + [a]) == Next(Run(w, xs), a)
  {
    assert (xs + [a])[..|xs|] == xs;
  }

  lemma {:induction false} RunAppend(w: World, xs: seq<Action>, ys: seq<Action>)
    ensures Run(w, xs + ys) == Run(Run(w, xs), ys)
    decreases |ys|
  {
    if ys == [] {
      assert xs + ys == xs;
    } else {
      assert (xs + ys)[..|xs + ys| - 1] == xs + ys[..|ys| - 1];
      RunAppend(w, xs, ys[..|ys| - 1]);
    }
  }

  // ---------------------------------------------------------------- a finaliser that nobody disturbs

  /** It begins exactly when nothing is pending or the count throws. */
  lemma FinaliserBegins(w: World, f: nat, start: Time, throws: bool)
    requires f !in w.finalizers
    ensures var pending := exists i :: i in w.events && w.events[i].ip.Some? && w.events[i].digest.None? && !w.events[i].unparseable
                                 && w.events[i].at >= start;
            Next(w, CountPending(f, start, throws)) ==
              if throws || !pending then w.(finalizers := w.finalizers[f := Finalizer(start, Purging)]) else w
  {
    if exists i :: i in w.events && w.events[i].ip.Some? && w.events[i].digest.None? && !w.events[i].unparseable && w.events[i].at >= start {
      var i :| i in w.events && w.events[i].ip.Some? && w.events[i].digest.None? && !w.events[i].unparseable && w.events[i].at >= start;
      assert i in PendingRows(w.events, start);
    } else {
      assert PendingRows(w.events, start) == {};
    }
  }

  /** The stages in order. */
  const STAGES := [Purging, ClearingAddresses, ClearingSentinels, Verifying, Switching]

  /** No row has an address any more, and no row without a digest a mark. */
  predicate Clean(events: Events) {
    forall i | i in events :: events[i].ip == None && (events[i].digest == None ==> !events[i].unparseable)
  }

  /** A statement that succeeds leads on to the next; the check does only on a clean table; and any other answer ends the finaliser. */
  lemma FinaliserGoesOn(w: World, f: nat, outcome: Outcome, n: nat)
    requires f in w.finalizers && n < |STAGES| && w.finalizers[f].stage == STAGES[n]
    ensures var v := Next(w, Advance(f, outcome));
            var goesOn := outcome == Done && n < 4 && (n == 3 ==> Clean(w.events));
            && v.finalizers == (if goesOn then w.finalizers[f := w.finalizers[f].(stage := STAGES[n + 1])] else w.finalizers - {f})
            && (outcome == Failed ==> v.events == w.events && v.mode == w.mode)
            && v.mode == (if n == 4 && outcome != Failed then Keyed else w.mode)
            && (n >= 3 ==> v.events == w.events) && v.log == w.log && v.keys == w.keys
  {
    assert STAGES[0] == Purging && STAGES[1] == ClearingAddresses && STAGES[2] == ClearingSentinels;
    assert STAGES[3] == Verifying && STAGES[4] == Switching;
    assert Clean(w.events) <==> forall i | i in w.events :: !Tainted(w.events[i]);
  }

  /** Only a finaliser at its last stage switches the mode, and none reaches it but past a check that found the table clean. */
  lemma SwitchIsReachedOnlyClean(w: World, a: Action, f: nat)
    ensures Next(w, a).mode != w.mode ==>
              a.Advance? && a.finalizer in w.finalizers && w.finalizers[a.finalizer].stage == Switching && Next(w, a).mode == Keyed
    ensures f in Next(w, a).finalizers && Next(w, a).finalizers[f].stage == Switching
            && (f in w.finalizers ==> w.finalizers[f].stage != Switching) ==>
              a == Advance(f, Done) && f in w.finalizers && w.finalizers[f].stage == Verifying && Clean(w.events)
  {
    if a.Advance? && a.finalizer in w.finalizers {
      assert Clean(w.events) <==> forall i | i in w.events :: !Tainted(w.events[i]);
    }
  }

  /** The first three statements together leave what their order promises. */
  lemma UndisturbedStatementsLeave(w: World, f: nat, w1: World, w2: World, w3: World, i: EventId)
    requires f in w.finalizers && w.finalizers[f].stage == Purging
    requires w1 == Next(w, Advance(f, Done)) && w2 == Next(w1, Advance(f, Done)) && w3 == Next(w2, Advance(f, Done))
    ensures f in w3.finalizers && w3.finalizers[f].stage == Verifying && Clean(w3.events) && w3.mode == w.mode
    ensures i in w3.events <==> i in w.events && (w.events[i].digest.Some? || w.events[i].installation.Some? || w.events[i].ip.None?)
    ensures i in w3.events ==> w3.events[i] == w.events[i].(ip := None, unparseable := w.events[i].unparseable && w.events[i].digest.Some?)
  {
    FinalizationLeaves(w.events, i);
    assert w1.events == Purge(w.events) && w2.events == WithoutAddresses(w1.events);
    assert w3.events == WithoutSentinels(w2.events);
  }

  /** A backfill reaches exactly the rows it names, and writes digests under the key in use. */
  lemma BackfillReaches(w: World, rows: set<EventId>, i: EventId)
    requires w.keys != [] && i in w.events
    ensures var v, e := Next(w, Backfill(rows)), w.events[i];
            && v == w.(events := v.events) && i in v.events
            && (i !in rows ==> v.events[i] == e)
            && (i in rows && e.ip.Some? && e.digest.None? && IpCanonical.Normalize(e.ip.value).Some? ==>
                  v.events[i] == e.(digest := Some(Hmac(w.keys[|w.keys| - 1], e.at / 86_400_000, IpScope, IpCanonical.Normalize(e.ip.value).value))))
  {
    RowIsBackfilled(w.events[i], InUse(w.keys));
  }

  /** A request is recorded once, in the tables and in history, under the key in use; without address and installation not at all. */
  lemma RequestIsTaken(w: World, id: EventId, endpoint: string, ip: Option<string>, installation: Option<string>, now: Time)
    requires w.keys != []
    ensures var e := Recorded(w.mode, endpoint, ip, installation, Some(InUse(w.keys)), now);
            Next(w, Request(id, w.mode, endpoint, ip, installation, now)) ==
              if id in w.log || (ip == None && installation == None) then w
              else w.(events := w.events[id := e], log := w.log[id := e])
  {
  }

  /** A rotation makes the key in use the previous one; a backfill works under the key in use. */
  lemma KeysRotate(w: World, next: Key, now: Time)
    requires w.keys != []
    ensures var v := Next(w, Rotate(next, now));
            && v.keys != [] && InUse(v.keys) == Secrets(next, Some(InUse(w.keys).current)) && v.rotations == w.rotations + [now]
            && v == w.(keys := v.keys, rotations := v.rotations)
  {
  }

  /** Rows as they were before digests: the address itself, whatever it is. */
  predicate Legacy(e: Event) {
    e.ip == e.origin && e.digest.None? && !e.unparseable
  }

  /** The migration starts in dual mode from legacy rows, with the keys there ever were. */
  ghost predicate Start(w: World) {
    && (forall i | i in w.events :: Legacy(w.events[i]))
    && w.log == w.events && w.mode == Dual && w.covered == None && w.finalizers == map[]
    && |w.keys| == |w.rotations| + 1
    && forall i, j | 0 <= i <= j < |w.rotations| :: w.rotations[i] <= w.rotations[j]
  }

  // ---------------------------------------------------------------- what holds in every run

  predicate SameRequest(e: Event, f: Event) {
    e.endpoint == f.endpoint && e.origin == f.origin && e.installation == f.installation && e.at == f.at
  }

  ghost predicate Inv(w: World) {
    && EventsOk(w.events)
    && (forall i | i in w.events :: i in w.log && SameRequest(w.events[i], w.log[i]))
    && |w.keys| == |w.rotations| + 1
    && (forall i | i in w.log && w.log[i].installation.Some? :: i in w.events)
  }

  /** A row less its address or its sentinel, if anything. */
  predicate Trimmed(e: Event, d: Event) {
    SameRequest(d, e) && d.digest == e.digest && (d.ip == e.ip || d.ip.None?) && (d.unparseable ==> e.unparseable)
  }

  /** All that finalising statements do to rows: trim them, and delete those that count by address only. */
  ghost predicate Tidied(before: Events, after: Events) {
    && (forall i | i in after :: i in before && Trimmed(before[i], after[i]))
    && (forall i | i in before && !Purged(before[i]) :: i in after)
  }

  lemma PurgeTidies(events: Events)
    ensures Tidied(events, Purge(events))
  {
  }

  lemma ClearingTidies(events: Events)
    ensures Tidied(events, WithoutAddresses(events)) && WithoutAddresses(events).Keys == events.Keys
    ensures Tidied(events, WithoutSentinels(events)) && WithoutSentinels(events).Keys == events.Keys
  {
  }

  lemma EffectTidies(w: World, f: Finalizer, v: World)
    requires v == Effect(w, f)
    ensures v == w.(events := v.events, covered := v.covered, mode := v.mode)
    ensures v.covered == if f.stage.Purging? then Raised(w.covered, f.start) else w.covered
    ensures v.mode == if f.stage.Switching? then Keyed else w.mode
    ensures Tidied(w.events, v.events)
  {
    match f.stage {
      case Purging => PurgeTidies(w.events);
      case ClearingAddresses => ClearingTidies(w.events);
      case ClearingSentinels => ClearingTidies(w.events);
      case _ =>
    }
  }

  lemma TidiedKeepsInv(w: World, v: World)
    requires Inv(w) && Tidied(w.events, v.events)
    requires v.log == w.log && v.keys == w.keys && v.rotations == w.rotations
    ensures Inv(v)
  {
    forall i | i in v.events ensures RowOk(v.events[i]) && i in w.events && SameRequest(v.events[i], w.events[i]) {
      assert RowOk(w.events[i]) && Trimmed(w.events[i], v.events[i]);
    }
  }

  lemma AdvanceKeepsInv(w: World, name: nat, outcome: Outcome, v: World)
    requires Inv(w) && name in w.finalizers && v == Advanced(w, name, outcome)
    ensures Inv(v)
  {
    if !outcome.Failed? {
      EffectTidies(w, w.finalizers[name], Effect(w, w.finalizers[name]));
      TidiedKeepsInv(w, v);
    }
  }

  lemma BackfillKeepsInv(w: World, rows: set<EventId>)
    requires Inv(w)
    ensures Inv(Next(w, Backfill(rows)))
  {
    forall i | i in w.events ensures RowOk(Backfilled(w.events[i], InUse(w.keys))) {
      assert RowOk(w.events[i]);
    }
  }

  lemma NextKeepsInv(w: World, a: Action)
    requires Inv(w)
    ensures Inv(Next(w, a))
  {
    if Enabled(w, a) {
      match a
      case Request(id, mode, endpoint, ip, installation, now) =>
        RecordedRowIsOk(mode, endpoint, ip, installation, Some(InUse(w.keys)), now);
      case Backfill(rows) => BackfillKeepsInv(w, rows);
      case Advance(f, outcome) => AdvanceKeepsInv(w, f, outcome, Next(w, a));
      case _ =>
    }
  }

  lemma {:induction false} RunKeepsInv(w: World, actions: seq<Action>)
    requires Start(w)
    ensures Inv(Run(w, actions))
    decreases |actions|
  {
    if actions != [] {
      RunKeepsInv(w, actions[..|actions| - 1]);
      NextKeepsInv(Run(w, actions[..|actions| - 1]), actions[|actions| - 1]);
    }
  }

  /** No step of any run changes a count by installation. */
  lemma InstallationCountsSurvive(start: World, actions: seq<Action>, installation: string, endpoint: string, windowStart: Time)
    requires Start(start)
    ensures var w := Run(start, actions);
            ByInstallation(w.events, installation, endpoint, windowStart)
            == ByInstallation(w.log, installation, endpoint, windowStart)
  {
    RunKeepsInv(start, actions);
  }

  /**
   At any moment of any run, the count of a parseable address is the plain count of all its requests
   exactly when each of them is still there and recognisable, or still there under the very text
   asked for while both columns are read.
   */
  lemma CountsSurviveMigration(start: World, actions: seq<Action>, mode: Mode, q: Query)
    requires Start(start) && IpCanonical.Normalize(q.ip).Some?
    ensures var w := Run(start, actions);
            && Counted(mode, w.events, q) <= PlainlyCounted(w.log, q)
            && (Counted(mode, w.events, q) == PlainlyCounted(w.log, q) <==>
                forall i :: i in PlainlyCounted(w.log, q) ==>
                  && i in w.events
                  && (Recognisable(w.events[i], q) || (mode.Dual? && w.events[i].ip == Some(q.ip))))
  {
    RunKeepsInv(start, actions);
    var w := Run(start, actions);
    forall i | i in w.events && InWindow(w.events[i], q)
      ensures i in Counted(mode, w.events, q) <==>
              i in PlainlyCounted(w.log, q)
              && (Recognisable(w.events[i], q) || (mode.Dual? && w.events[i].ip == Some(q.ip)))
    {
      assert RowOk(w.events[i]) && SameRequest(w.events[i], w.log[i]);
      MatchesExactly(mode, w.events[i], q);
    }
    forall i | i in PlainlyCounted(w.log, q) && i in w.events ensures InWindow(w.events[i], q) {
      assert SameRequest(w.events[i], w.log[i]);
    }
  }

  // ---------------------------------------------------------------- what finalising may lose

  predicate Readable(e: Event) {
    e.origin.Some? && IpCanonical.Normalize(e.origin.value).Some?
  }

  /** The row can be counted by its address only, and its address can be read. */
  predicate Undigested(e: Event) {
    e.digest.None? && e.ip.Some? && Readable(e)
  }

  predicate Uncovered(w: World, t: Time) {
    w.covered.Some? && t < w.covered.value
  }

  /** Every covered request with a readable address still has its row, with the digest or the address. */
  ghost predicate Kept(w: World) {
    forall i | i in w.log && Readable(w.log[i]) && !Uncovered(w, w.log[i].at) ::
      i in w.events && (w.events[i].digest.Some? || w.events[i].ip.Some?)
  }

  /** No covered row from `start` on is undigested. */
  ghost predicate Settled(w: World, start: Time) {
    forall i | i in w.events && Undigested(w.events[i]) && w.events[i].at >= start :: Uncovered(w, w.events[i].at)
  }

  /** Whatever the count said, a finaliser starts only with no covered row of its window undigested. */
  ghost predicate Careful(w: World, a: Action) {
    LetsThrough(w, a) ==> Settled(w, a.start)
  }

  ghost predicate CarefulFrom(w: World, actions: seq<Action>) {
    forall n | 0 <= n < |actions| :: Careful(Run(w, actions[..n]), actions[n])
  }

  /** A count that did not throw is careful. */
  lemma TruthfulCountIsCareful(w: World, a: Action)
    requires Inv(w) && a.CountPending? && !a.throws
    ensures Careful(w, a)
  {
    if LetsThrough(w, a) {
      forall i | i in w.events && Undigested(w.events[i]) ensures w.events[i].at < a.start {
        assert RowOk(w.events[i]);
        assert i !in PendingRows(w.events, a.start);
      }
    }
  }

  ghost predicate CarefulInv(w: World) {
    && Inv(w)
    && Kept(w)
    && (forall f | f in w.finalizers :: Settled(w, w.finalizers[f].start))
    && (forall f | f in w.finalizers && !w.finalizers[f].stage.Purging? ::
          w.covered.Some? && w.finalizers[f].start <= w.covered.value)
    && (w.mode.Keyed? ==> forall i | i in w.events && Undigested(w.events[i]) :: Uncovered(w, w.events[i].at))
  }

  /** Rows lose nothing but an address that is not needed, and no row becomes undigested. */
  ghost predicate Tidier(w: World, v: World) {
    && v.log == w.log
    && (forall i | i in v.events :: i in w.events && v.events[i].at == w.events[i].at)
    && (forall i | i in v.events && Undigested(v.events[i]) :: Undigested(w.events[i]))
    && (v.covered == w.covered || (v.covered.Some? && (w.covered.Some? ==> w.covered.value <= v.covered.value)))
  }

  lemma TidierStaysSettled(w: World, v: World, start: Time)
    requires Settled(w, start) && Tidier(w, v)
    ensures Settled(v, start)
  {
  }

  lemma TidiedIsTidier(w: World, v: World)
    requires Tidied(w.events, v.events) && v.log == w.log
    requires v.covered == w.covered || exists t :: v.covered == Raised(w.covered, t)
    ensures Tidier(w, v)
  {
    forall i | i in v.events ensures i in w.events && v.events[i].at == w.events[i].at
                                     && (Undigested(v.events[i]) ==> Undigested(w.events[i])) {
      assert Trimmed(w.events[i], v.events[i]);
    }
  }

  /** Tidying keeps every covered request once no covered row of the window is undigested. */
  lemma TidiedKeepsKept(w: World, v: World, start: Time)
    requires Inv(w) && Kept(w) && Settled(w, start) && Tidied(w.events, v.events) && v.log == w.log
    requires v.covered.Some? && start <= v.covered.value && (w.covered.Some? ==> w.covered.value <= v.covered.value)
    ensures Kept(v)
  {
    forall i | i in v.log && Readable(v.log[i]) && !Uncovered(v, v.log[i].at)
      ensures i in v.events && (v.events[i].digest.Some? || v.events[i].ip.Some?)
    {
      assert i in w.events && SameRequest(w.events[i], w.log[i]);
      assert !Undigested(w.events[i]) && !Purged(w.events[i]);
      assert Trimmed(w.events[i], v.events[i]);
    }
  }

  lemma AdvanceKeepsCareful(w: World, name: nat, outcome: Outcome, v: World)
    requires CarefulInv(w) && name in w.finalizers && v == Advanced(w, name, outcome)
    ensures CarefulInv(v)
  {
    var f := w.finalizers[name];
    AdvanceKeepsInv(w, name, outcome, v);
    if outcome.Failed? {
      FailedAdvanceIsCareful(w, name, v);
    } else {
      var u := Effect(w, f);
      EffectTidies(w, f, u);
      TidiedIsTidier(w, u);
      TidiedKeepsKept(w, u, f.start);
      forall g | g in w.finalizers ensures Settled(u, w.finalizers[g].start) {
        TidierStaysSettled(w, u, w.finalizers[g].start);
      }
      AdvancedIsCareful(w, name, u, v);
    }
  }

  lemma FailedAdvanceIsCareful(w: World, name: nat, v: World)
    requires CarefulInv(w) && v == w.(finalizers := w.finalizers - {name})
    ensures CarefulInv(v)
  {
    forall g | g in v.finalizers ensures Settled(v, v.finalizers[g].start) {
      assert Settled(w, w.finalizers[g].start);
    }
  }

  /** What is left to check of a statement with effect: the finalisers after it, and the switch. */
  lemma AdvancedIsCareful(w: World, name: nat, u: World, v: World)
    requires CarefulInv(w) && name in w.finalizers
    requires u.covered == if w.finalizers[name].stage.Purging? then Raised(w.covered, w.finalizers[name].start) else w.covered
    requires u.mode == if w.finalizers[name].stage.Switching? then Keyed else w.mode
    requires Inv(v) && Kept(u) && Tidier(w, u)
    requires forall g | g in w.finalizers :: Settled(u, w.finalizers[g].start)
    requires v == u.(finalizers := v.finalizers) && v.finalizers.Keys <= w.finalizers.Keys
    requires forall g | g in v.finalizers && g != name :: v.finalizers[g] == w.finalizers[g]
    requires name in v.finalizers ==> v.finalizers[name].start == w.finalizers[name].start
    ensures CarefulInv(v)
  {
    forall g | g in v.finalizers ensures Settled(v, v.finalizers[g].start) {
      assert Settled(u, w.finalizers[g].start);
    }
    if v.mode.Keyed? {
      assert Settled(u, w.finalizers[name].start);
      forall i | i in v.events && Undigested(v.events[i]) ensures Uncovered(v, v.events[i].at) {
        assert Undigested(w.events[i]);
      }
    }
  }

  lemma RequestKeepsCareful(w: World, a: Action, v: World)
    requires CarefulInv(w) && a.Request? && Enabled(w, a) && v == Next(w, a)
    ensures CarefulInv(v)
  {
    NextKeepsInv(w, a);
    assert !Undigested(v.events[a.id]);
    forall f | f in v.finalizers ensures Settled(v, v.finalizers[f].start) {
      assert Settled(w, w.finalizers[f].start);
    }
  }

  lemma BackfillIsTidier(w: World, rows: set<EventId>, v: World)
    requires v == Next(w, Backfill(rows))
    ensures Tidier(w, v) && v.events.Keys == w.events.Keys
    ensures v == w.(events := v.events)
    ensures forall i | i in v.events :: v.events[i].ip == w.events[i].ip && (w.events[i].digest.Some? ==> v.events[i].digest.Some?)
  {
  }

  lemma BackfillKeepsKept(w: World, v: World)
    requires Kept(w) && v == w.(events := v.events) && v.events.Keys == w.events.Keys
    requires forall i | i in v.events :: v.events[i].ip == w.events[i].ip && (w.events[i].digest.Some? ==> v.events[i].digest.Some?)
    ensures Kept(v)
  {
  }

  lemma BackfillKeepsCareful(w: World, rows: set<EventId>, v: World)
    requires CarefulInv(w) && v == Next(w, Backfill(rows))
    ensures CarefulInv(v)
  {
    NextKeepsInv(w, Backfill(rows));
    BackfillIsTidier(w, rows, v);
    BackfillKeepsKept(w, v);
    TidierIsCareful(w, v);
  }

  lemma TidierIsCareful(w: World, v: World)
    requires CarefulInv(w) && Inv(v) && Kept(v) && Tidier(w, v) && v == w.(events := v.events)
    ensures CarefulInv(v)
  {
    forall f | f in v.finalizers ensures Settled(v, v.finalizers[f].start) {
      TidierStaysSettled(w, v, w.finalizers[f].start);
    }
  }

  lemma NextKeepsCareful(w: World, a: Action, v: World)
    requires CarefulInv(w) && Careful(w, a) && v == Next(w, a)
    ensures CarefulInv(v)
  {
    if Enabled(w, a) {
      match a {
        case Request(_, _, _, _, _, _) => RequestKeepsCareful(w, a, v);
        case Backfill(rows) => BackfillKeepsCareful(w, rows, v);
        case Advance(f, outcome) => AdvanceKeepsCareful(w, f, outcome, v);
        case _ =>
          forall f | f in v.finalizers ensures Settled(v, v.finalizers[f].start) {
            assert Settled(w, v.finalizers[f].start);
          }
      }
    }
  }

  lemma {:induction false} RunKeepsCareful(w: World, actions: seq<Action>)
    requires CarefulInv(w) && CarefulFrom(w, actions)
    ensures CarefulInv(Run(w, actions))
    decreases |actions|
  {
    if actions != [] {
      var n := |actions| - 1;
      CarefulPrefix(w, actions, n);
      RunKeepsCareful(w, actions[..n]);
      NextKeepsCareful(Run(w, actions[..n]), actions[n], Run(w, actions));
    }
  }

  lemma CarefulPrefix(w: World, actions: seq<Action>, n: nat)
    requires n <= |actions| && CarefulFrom(w, actions)
    ensures CarefulFrom(w, actions[..n])
  {
    forall m | 0 <= m < n ensures Careful(Run(w, actions[..n][..m]), actions[..n][m]) {
      assert actions[..n][..m] == actions[..m];
    }
  }

  lemma StartIsCareful(w: World)
    requires Start(w)
    ensures CarefulInv(w)
  {
  }

  /** Nobody moves but the finalisers that were let through. */
  predicate FinalizersOnly(rest: seq<Action>) {
    forall a | a in rest :: a.Advance?
  }

  /** The first two statements of a finaliser, both done. */
  lemma FirstStatements(v: World, f: nat, start: Time, u: World, x: World)
    requires f in v.finalizers && v.finalizers[f] == Finalizer(start, Purging)
    requires u == Next(v, Advance(f, Done)) && x == Next(u, Advance(f, Done))
    ensures u.log == v.log && u.events == Purge(v.events) && u.covered == Raised(v.covered, start)
    ensures x.log == u.log && x.events == WithoutAddresses(u.events) && x.covered == u.covered
  {
    var w1 := Effect(v, v.finalizers[f]);
    assert u == w1.(finalizers := v.finalizers[f := Finalizer(start, ClearingAddresses)]);
  }

  /** A finaliser let through over an undigested covered row loses it. */
  lemma CarelessnessLoses(w: World, a: Action, i: EventId) returns (rest: seq<Action>)
    requires Inv(w) && LetsThrough(w, a)
    requires i in w.events && Undigested(w.events[i]) && w.events[i].at >= a.start && !Uncovered(w, w.events[i].at)
    ensures FinalizersOnly(rest) && !Kept(Run(Next(w, a), rest))
  {
    var f, v := a.finalizer, Next(w, a);
    var purge := Advance(f, Done);
    rest := [purge] + [purge];
    RunTwice(v, purge);
    var u := Next(v, purge);
    FirstStatements(v, f, a.start, u, Next(u, purge));
    RowIsLost(w, u, Next(u, purge), i, a.start);
  }

  lemma RunTwice(v: World, a: Action)
    ensures Run(v, [a] + [a]) == Next(Next(v, a), a)
  {
    var none: seq<Action> := [];
    assert none + [a] == [a];
    RunSnoc(v, none, a);
    RunSnoc(v, [a], a);
  }

  lemma RowIsLost(w: World, u: World, v: World, i: EventId, start: Time)
    requires Inv(w) && i in w.events && Undigested(w.events[i]) && w.events[i].at >= start && !Uncovered(w, w.events[i].at)
    requires u.log == w.log && u.events == Purge(w.events) && u.covered == Raised(w.covered, start)
    requires v.log == u.log && v.events == WithoutAddresses(u.events) && v.covered == u.covered
    ensures !Kept(v)
  {
    assert SameRequest(w.events[i], w.log[i]);
    assert Readable(v.log[i]) && !Uncovered(v, v.log[i].at);
    assert i in v.events ==> v.events[i].digest.None? && v.events[i].ip.None?;
  }

  lemma CarefulRunsLoseNothing(start: World, actions: seq<Action>, n: nat, rest: seq<Action>)
    requires Start(start) && CarefulFrom(start, actions) && n <= |actions| && FinalizersOnly(rest)
    ensures Kept(Run(start, actions[..n] + rest))
  {
    StartIsCareful(start);
    CarefulPrefix(start, actions, n);
    RunKeepsCareful(start, actions[..n]);
    NobodyIsLetThrough(Run(start, actions[..n]), rest);
    RunKeepsCareful(Run(start, actions[..n]), rest);
    RunAppend(start, actions[..n], rest);
  }

  lemma NobodyIsLetThrough(w: World, rest: seq<Action>)
    requires FinalizersOnly(rest)
    ensures CarefulFrom(w, rest)
  {
    forall n | 0 <= n < |rest| ensures Careful(Run(w, rest[..n]), rest[n]) {
      AdvanceIsCareful(Run(w, rest[..n]), rest[n]);
    }
  }

  lemma AdvanceIsCareful(w: World, a: Action)
    requires a.Advance?
    ensures Careful(w, a)
  {
  }

  lemma CarelessRunsLose(start: World, actions: seq<Action>, n: nat) returns (rest: seq<Action>)
    requires Start(start) && n < |actions| && !Careful(Run(start, actions[..n]), actions[n])
    ensures FinalizersOnly(rest) && !Kept(Run(start, actions[..n + 1] + rest))
  {
    var w, a := Run(start, actions[..n]), actions[n];
    RunKeepsInv(start, actions[..n]);
    var i :| i in w.events && Undigested(w.events[i]) && w.events[i].at >= a.start && !Uncovered(w, w.events[i].at);
    rest := CarelessnessLoses(w, a, i);
    RunStep(start, actions, n);
    RunAppend(start, actions[..n + 1], rest);
  }

  /**
   For every run: at each of its moments, and whatever the finalisers let through by then still do, no
   covered request with a readable address is lost, exactly when each pending count that let one
   through really left no covered row of its window undigested.
   */
  lemma NothingIsLostExactlyWhenCareful(start: World, actions: seq<Action>)
    requires Start(start)
    ensures (forall n: nat, rest: seq<Action> | n <= |actions| && FinalizersOnly(rest) ::
               Kept(Run(start, actions[..n] + rest)))
            <==> CarefulFrom(start, actions)
  {
    if CarefulFrom(start, actions) {
      forall n: nat, rest: seq<Action> | n <= |actions| && FinalizersOnly(rest)
        ensures Kept(Run(start, actions[..n] + rest))
      {
        CarefulRunsLoseNothing(start, actions, n, rest);
      }
    } else {
      var n: nat :| n < |actions| && !Careful(Run(start, actions[..n]), actions[n]);
      var rest := CarelessRunsLose(start, actions, n);
      assert n + 1 <= |actions|;
    }
  }

  /** One legacy row with an address and nothing else, and one key. */
  function OneRow(ip: string): World {
    var row := Event("endpoint", Some(ip), Some(ip), None, false, None, 0);
    World(map[0 := row], map[0 := row], Dual, [Key("secret", 1)], [], None, map[])
  }

  lemma OneRowIsLetThrough(ip: string, w: World)
    requires w == Next(OneRow(ip), CountPending(0, 0, true))
    ensures w == OneRow(ip).(finalizers := map[0 := Finalizer(0, Purging)])
  {
  }

  lemma OneRowIsPurged(ip: string, w: World, v: World)
    requires w == OneRow(ip).(finalizers := map[0 := Finalizer(0, Purging)]) && v == Next(w, Advance(0, Done))
    ensures v.events == map[] && v.log == OneRow(ip).log && v.covered == Some(0)
  {
    assert Purge(OneRow(ip).events) == map[];
  }

  lemma ThrowingCountPurges(ip: string)
    ensures var w := Run(OneRow(ip), [CountPending(0, 0, true)] + [Advance(0, Done)]);
            w.events == map[] && w.log == OneRow(ip).log && w.covered == Some(0)
  {
    var count := CountPending(0, 0, true);
    assert [] + [count] == [count];
    RunSnoc(OneRow(ip), [], count);
    RunSnoc(OneRow(ip), [count], Advance(0, Done));
    OneRowIsLetThrough(ip, Next(OneRow(ip), count));
    OneRowIsPurged(ip, Next(OneRow(ip), count), Next(Next(OneRow(ip), count), Advance(0, Done)));
  }

  /** A pending count that throws over one row with an address and nothing else, and the row is deleted. */
  lemma ThrowingCountLosesARequest() returns (start: World, actions: seq<Action>, q: Query)
    ensures Start(start) && !Kept(Run(start, actions))
    ensures PlainlyCounted(Run(start, actions).log, q) == {0}
    ensures forall mode :: Counted(mode, Run(start, actions).events, q) == {}
  {
    var ip := IpCanonical.PrintIpv4([1, 2, 3, 4]);
    IpCanonical.PrintedIpv4IsNormal([1, 2, 3, 4]);
    start, actions := OneRow(ip), [CountPending(0, 0, true)] + [Advance(0, Done)];
    q := Query("endpoint", ip, InUse(start.keys), 0, 0);
    ThrowingCountPurges(ip);
    OneRowIsCounted(ip, q, Run(start, actions));
  }

  lemma OneRowIsCounted(ip: string, q: Query, w: World)
    requires IpCanonical.Normalize(ip).Some? && q.endpoint == "endpoint" && q.ip == ip && q.windowStart == 0
    requires w.events == map[] && w.log == OneRow(ip).log && w.covered == Some(0)
    ensures Start(OneRow(ip)) && !Kept(w)
    ensures PlainlyCounted(w.log, q) == {0} && forall mode :: Counted(mode, w.events, q) == {}
  {
    assert Readable(w.log[0]) && !Uncovered(w, w.log[0].at);
  }

  // ---------------------------------------------------------------- one rotation

  /** Clocks agree: the key changes after whatever was recorded before, and rotations come in order. */
  ghost predicate Orderly(w: World, a: Action) {
    a.Rotate? ==>
      && (forall i | i in w.events :: w.events[i].at <= a.now)
      && (w.rotations != [] ==> w.rotations[|w.rotations| - 1] <= a.now)
  }

  ghost predicate OrderlyFrom(w: World, actions: seq<Action>) {
    forall n | 0 <= n < |actions| :: Orderly(Run(w, actions[..n]), actions[n])
  }

  /** The row's key is the one in use, or was replaced no earlier than the row was recorded. */
  ghost predicate Timely(w: World, e: Event)
    requires |w.keys| == |w.rotations| + 1
  {
    e.digest.Some? ==>
      exists j :: 0 <= j < |w.keys| && w.keys[j] == e.digest.value.key && (j == |w.rotations| || e.at <= w.rotations[j])
  }

  ghost predicate OrderlyInv(w: World) {
    && Inv(w)
    && (forall i | i in w.events :: Timely(w, w.events[i]))
    && (forall i, j | 0 <= i <= j < |w.rotations| :: w.rotations[i] <= w.rotations[j])
  }

  lemma RotateKeepsOrderly(w: World, a: Action, v: World)
    requires OrderlyInv(w) && a.Rotate? && Orderly(w, a) && v == Next(w, a)
    ensures OrderlyInv(v)
  {
    forall i | i in v.events ensures Timely(v, v.events[i]) {
      assert Timely(w, w.events[i]);
      if w.events[i].digest.Some? {
        var j :| 0 <= j < |w.keys| && w.keys[j] == w.events[i].digest.value.key
                 && (j == |w.rotations| || w.events[i].at <= w.rotations[j]);
        assert v.keys[j] == w.keys[j] && w.events[i].at <= v.rotations[j];
      }
    }
  }

  /** A row digested now carries the last key. */
  lemma DigestedNowIsTimely(w: World, e: Event)
    requires |w.keys| == |w.rotations| + 1
    requires e.digest.Some? ==> e.digest.value.key == InUse(w.keys).current
    ensures Timely(w, e)
  {
    if e.digest.Some? { assert w.keys[|w.rotations|] == e.digest.value.key; }
  }

  lemma RequestKeepsOrderly(w: World, a: Action, v: World)
    requires OrderlyInv(w) && a.Request? && Enabled(w, a) && v == Next(w, a)
    ensures OrderlyInv(v)
  {
    NextKeepsInv(w, a);
    DigestedNowIsTimely(v, v.events[a.id]);
    forall i | i in v.events ensures Timely(v, v.events[i]) {
      assert i != a.id ==> Timely(w, w.events[i]);
    }
  }

  lemma BackfillKeepsOrderly(w: World, rows: set<EventId>, v: World)
    requires OrderlyInv(w) && v == Next(w, Backfill(rows))
    ensures OrderlyInv(v)
  {
    NextKeepsInv(w, Backfill(rows));
    forall i | i in v.events ensures Timely(v, v.events[i]) {
      assert Timely(w, w.events[i]);
      if v.events[i].digest != w.events[i].digest { DigestedNowIsTimely(v, v.events[i]); }
    }
  }

  lemma AdvanceKeepsOrderly(w: World, name: nat, outcome: Outcome, v: World)
    requires OrderlyInv(w) && name in w.finalizers && v == Advanced(w, name, outcome)
    ensures OrderlyInv(v)
  {
    AdvanceKeepsInv(w, name, outcome, v);
    EffectTidies(w, w.finalizers[name], Effect(w, w.finalizers[name]));
    forall i | i in v.events ensures Timely(v, v.events[i]) {
      assert Timely(w, w.events[i]);
      assert v.events[i] == w.events[i] || Trimmed(w.events[i], v.events[i]);
    }
  }

  lemma NextKeepsOrderly(w: World, a: Action, v: World)
    requires OrderlyInv(w) && Orderly(w, a) && v == Next(w, a)
    ensures OrderlyInv(v)
  {
    if Enabled(w, a) {
      match a {
        case Request(_, _, _, _, _, _) => RequestKeepsOrderly(w, a, v);
        case Rotate(_, _) => RotateKeepsOrderly(w, a, v);
        case Backfill(rows) => BackfillKeepsOrderly(w, rows, v);
        case Advance(f, outcome) => AdvanceKeepsOrderly(w, f, outcome, v);
        case _ =>
          forall i | i in v.events ensures Timely(v, v.events[i]) { assert Timely(w, w.events[i]); }
      }
    }
  }

  lemma {:induction false} RunKeepsOrderly(w: World, actions: seq<Action>, n: nat)
    requires Start(w) && OrderlyFrom(w, actions) && n <= |actions|
    ensures OrderlyInv(Run(w, actions[..n]))
  {
    if n == 0 {
      assert actions[..0] == [];
    } else {
      RunKeepsOrderly(w, actions, n - 1);
      RunStep(w, actions, n - 1);
      NextKeepsOrderly(Run(w, actions[..n - 1]), actions[n - 1], Run(w, actions[..n]));
    }
  }

  /** At most one rotation since the window opened. */
  predicate RotatedAtMostOnceSince(w: World, t: Time) {
    |w.rotations| < 2 || w.rotations[|w.rotations| - 2] < t
  }

  lemma RecentKeyIsKnown(w: World, e: Event, t: Time)
    requires |w.keys| == |w.rotations| + 1 && Timely(w, e) && e.digest.Some?
    requires forall i, j | 0 <= i <= j < |w.rotations| :: w.rotations[i] <= w.rotations[j]
    requires RotatedAtMostOnceSince(w, t) && e.at >= t
    ensures Knows(InUse(w.keys), e.digest.value.key)
  {
    forall k | 0 <= k < |w.rotations| - 1 ensures w.rotations[k] <= w.rotations[|w.rotations| - 2] {}
    var j :| 0 <= j < |w.keys| && w.keys[j] == e.digest.value.key && (j == |w.rotations| || e.at <= w.rotations[j]);
  }

  /** The window starts where every purge was meant to spare, and in dual mode all its rows are digested. */
  ghost predicate Covers(w: World, q: Query) {
    && !Uncovered(w, q.windowStart)
    && (w.mode.Dual? ==> forall i | i in w.events && Undigested(w.events[i]) :: w.events[i].at < q.windowStart)
  }

  lemma CoveredRowHasDigest(w: World, q: Query, i: EventId)
    requires CarefulInv(w) && Covers(w, q) && i in PlainlyCounted(w.log, q)
    ensures i in w.events && w.events[i].digest.Some? && w.events[i].at >= q.windowStart
  {
    assert Readable(w.log[i]) && !Uncovered(w, w.log[i].at);
    assert SameRequest(w.events[i], w.log[i]);
    assert !Undigested(w.events[i]);
  }

  /**
   From legacy rows through any requests, backfills, rotations and careful finalisers at any of their
   statements: with clocks that agree, at most one rotation since the window opened and no request on
   a later day than now, a covered window counts a parseable address as plainly as ever, in either mode.
   */
  lemma CountsArePlain(start: World, actions: seq<Action>, mode: Mode, q: Query)
    requires Start(start) && OrderlyFrom(start, actions) && CarefulFrom(start, actions)
    requires IpCanonical.Normalize(q.ip).Some?
    requires var w := Run(start, actions);
             && w.keys != [] && q.secrets == InUse(w.keys)
             && Covers(w, q) && RotatedAtMostOnceSince(w, q.windowStart)
             && forall i | i in PlainlyCounted(w.log, q) :: Day(w.log[i].at) <= Day(q.now)
    ensures var w := Run(start, actions); Counted(mode, w.events, q) == PlainlyCounted(w.log, q)
  {
    var w := Run(start, actions);
    StartIsCareful(start);
    RunKeepsCareful(start, actions);
    assert actions[..|actions|] == actions;
    RunKeepsOrderly(start, actions, |actions|);
    forall i | i in PlainlyCounted(w.log, q) ensures i in w.events && Recognisable(w.events[i], q) {
      CoveredRowHasDigest(w, q, i);
      assert Timely(w, w.events[i]) && SameRequest(w.events[i], w.log[i]);
      RecentKeyIsKnown(w, w.events[i], q.windowStart);
    }
    CountsSurviveMigration(start, actions, mode, q);
  }
}
