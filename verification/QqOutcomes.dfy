/**
 What QQ issuance answers and leaves behind: the outcome of a request that runs alone, for every row it
 may meet and every way it may fail, and what holds of replies and rows under any interleaving.
 */
module QqOutcomes {
  import opened Common
  import opened QqIssuance

  // ---------------------------------------------------------------- a request that runs alone

  const OK := Returns(false)

  function Play(c: Scene, answers: seq<Answer>): Scene {
    Plays(RequestStep, c, answers)
  }

  function Advances(id: RequestId, answers: seq<Answer>): seq<Action>
    decreases |answers|
  {
    if answers == [] then [] else Advances(id, answers[..|answers| - 1]) + [Advance(id, answers[|answers| - 1])]
  }

  /** Playing a request is a run of the system in which nobody else acts. */
  lemma {:induction false} PlayIsRun(w: World, id: RequestId, answers: seq<Answer>)
    requires id in w.requests
    ensures var c := Play(Scene(w.rows, w.provider, w.requests[id]), answers);
            Run(w, Advances(id, answers)) == w.(rows := c.rows, provider := c.provider, requests := w.requests[id := c.request])
    decreases |answers|
  {
    if answers == [] {
      assert w.requests == w.requests[id := w.requests[id]];
    } else {
      var n := |answers| - 1;
      PlayIsRun(w, id, answers[..n]);
      var xs, a := Advances(id, answers[..n]), Advance(id, answers[n]);
      assert (xs + [a])[..|xs + [a]| - 1] == xs;
      PlayedOneMore(w, id, Play(Scene(w.rows, w.provider, w.requests[id]), answers[..n]), answers[n], Run(w, xs));
    }
  }

  lemma PlayedOneMore(w: World, id: RequestId, c: Scene, a: Answer, v: World)
    requires id in w.requests && v == w.(rows := c.rows, provider := c.provider, requests := w.requests[id := c.request])
    ensures var d := RequestStep(c, a);
            Next(v, Advance(id, a)) == w.(rows := d.rows, provider := d.provider, requests := w.requests[id := d.request])
  {
    var d := RequestStep(c, a);
    assert v.requests[id := d.request] == w.requests[id := d.request];
  }

  lemma PlayOne(c: Scene, answers: seq<Answer>, a: Answer)
    ensures Play(c, answers + [a]) == RequestStep(Play(c, answers), a)
  {
    assert (answers + [a])[..|answers|] == answers;
  }

  lemma PlayFrom(c: Scene, xs: seq<Answer>, e: Scene, ys: seq<Answer>, both: seq<Answer>)
    requires both == xs + ys && Play(c, xs) == e
    ensures Play(c, both) == Play(e, ys)
  {
    PlaysAppend(RequestStep, c, xs, ys);
  }

  lemma PlaySingle(c: Scene, a: Answer)
    ensures Play(c, [a]) == RequestStep(c, a)
  {
    var none: seq<Answer> := [];
    assert none + [a] == [a];
    PlayOne(c, none, a);
  }

  lemma PlayTwo(c: Scene, a: Answer, b: Answer)
    ensures Play(c, [a, b]) == RequestStep(RequestStep(c, a), b)
  {
    assert [a] + [b] == [a, b];
    PlayOne(c, [a], b);
    PlaySingle(c, a);
  }

  lemma PlayThree(c: Scene, a: Answer, b: Answer, d: Answer)
    ensures Play(c, [a, b, d]) == RequestStep(RequestStep(RequestStep(c, a), b), d)
  {
    assert [a, b] + [d] == [a, b, d];
    PlayOne(c, [a, b], d);
    PlayTwo(c, a, b);
  }

  /** The row is a reservation of this request that nobody went on with. */
  predicate IsUntouched(t: Table, s: Subject, r: IssueRef) {
    s in t && t[s].issueRef == r && t[s].status == Issuing && t[s].credential == None && t[s].startedAt == None
  }

  /** The row says that the create call of this request was started, and has no key. */
  predicate IsStarted(t: Table, s: Subject, r: IssueRef) {
    s in t && t[s].issueRef == r && t[s].status == Issuing && t[s].credential == None && t[s].startedAt.Some?
  }

  /** The row of this request holds the key, in one of the statuses. */
  predicate HoldsKey(t: Table, s: Subject, r: IssueRef, k: KeyHash, statuses: set<Status>) {
    s in t && t[s].issueRef == r && t[s].credential == Some(k) && t[s].status in statuses
  }

  /** A request that has not begun to reserve. */
  predicate Fresh(q: Request) {
    q.pc == ReadRow && q.childKey.None? && !q.reservationCreated && !q.creationStarted && !q.keyAttached
  }

  // ---------------------------------------------------------------- reserving

  predicate StatusBlocks(row: Row) { !row.status.Issuing? }

  lemma ReadStep(c: Scene)
    requires Fresh(c.request)
    ensures var q := c.request;
            RequestStep(c, OK) == c.(request := q.At(
              if q.subject in c.rows && StatusBlocks(c.rows[q.subject]) then Finished(Refused) else Insert))
  {
  }

  lemma InsertStep(c: Scene)
    requires c.request.pc == Insert && c.request.childKey.None?
    ensures var q := c.request;
            RequestStep(c, OK) ==
              if q.subject in c.rows then c.(request := q.At(Reread))
              else c.(rows := c.rows[q.subject := Row(Issuing, q.issueRef, None, q.now, None)],
                      request := q.(pc := CheckDailyCap, reservationCreated := true))
  {
  }

  lemma FinishedStep(c: Scene, a: Answer)
    requires c.request.pc.Finished?
    ensures RequestStep(c, a) == c
  {
  }

  /** On a subject without a row, a request reserves it. */
  lemma FreeSubjectIsReserved(c: Scene)
    requires Fresh(c.request) && c.request.subject !in c.rows
    ensures var q := c.request;
            Play(c, [OK, OK]) == c.(rows := c.rows[q.subject := Row(Issuing, q.issueRef, None, q.now, None)],
                                    request := q.(pc := CheckDailyCap, reservationCreated := true))
  {
    PlayTwo(c, OK, OK);
    ReadStep(c);
    InsertStep(c.(request := c.request.At(Insert)));
  }

  lemma IssuingRowIsReread(c: Scene)
    requires Fresh(c.request) && c.request.subject in c.rows && c.rows[c.request.subject].status.Issuing?
    ensures Play(c, [OK, OK]) == c.(request := c.request.At(Reread))
  {
    PlayTwo(c, OK, OK);
    ReadStep(c);
    InsertStep(c.(request := c.request.At(Insert)));
  }

  /** A row that is not being issued is left alone, and its request refused. */
  lemma SettledRowRefuses(c: Scene)
    requires Fresh(c.request) && c.request.subject in c.rows && !c.rows[c.request.subject].status.Issuing?
    ensures Play(c, [OK]) == c.(request := c.request.At(Finished(Refused)))
  {
    PlaySingle(c, OK);
    ReadStep(c);
  }

  /** How old a reservation has to be before another request may take it over. */
  predicate Stale(row: Row, now: Time) { now - row.reservedAt >= 15 * 60_000 }

  lemma RereadStep(c: Scene)
    requires c.request.pc == Reread && c.request.childKey.None? && c.request.subject in c.rows
    requires c.rows[c.request.subject].status.Issuing?
    ensures var q := c.request;
            var row := c.rows[q.subject];
            RequestStep(c, OK) == c.(request := q.At(
              if !Stale(row, q.now) then Finished(Refused)
              else if row.credential.Some? then MarkStaleCleanup(row.issueRef, row.credential.value)
              else if row.startedAt.Some? then Finished(Refused)
              else ReclaimStale(row.issueRef)))
  {
  }

  /** A row that was settled, or gave way, between the insert and this look refuses the request at once. */
  lemma RowThatMovedOnRefuses(c: Scene)
    requires c.request.pc == Reread && c.request.childKey.None?
    requires c.request.subject in c.rows ==> !c.rows[c.request.subject].status.Issuing?
    ensures RequestStep(c, OK) == c.(request := c.request.At(Finished(Refused)))
  {
  }

  /** A reservation within its 15 minutes is left alone, and so is an older one whose create call was started. */
  lemma BusyRowRefuses(c: Scene)
    requires Fresh(c.request) && c.request.subject in c.rows && c.rows[c.request.subject].status.Issuing?
    requires var row := c.rows[c.request.subject]; !Stale(row, c.request.now) || (row.credential.None? && row.startedAt.Some?)
    ensures Play(c, [OK, OK] + [OK]) == c.(request := c.request.At(Finished(Refused)))
  {
    IssuingRowIsReread(c);
    PlayOne(c, [OK, OK], OK);
    RereadStep(c.(request := c.request.At(Reread)));
  }

  lemma FlagStep(c: Scene, seen: IssueRef, k: KeyHash)
    requires c.request.pc == MarkStaleCleanup(seen, k) && c.request.childKey.None? && c.request.subject in c.rows
    requires var row := c.rows[c.request.subject]; row.issueRef == seen && row.credential == Some(k) && row.status.Issuing?
    ensures RequestStep(c, OK) == c.(rows := c.rows[c.request.subject := c.rows[c.request.subject].(status := CleanupRequired)],
                                     request := c.request.At(Finished(Refused)))
  {
  }

  /** A stale reservation that holds a key is flagged for cleanup, and its request refused. */
  lemma StaleKeyIsFlagged(c: Scene)
    requires Fresh(c.request) && c.request.subject in c.rows && c.rows[c.request.subject].status.Issuing?
    requires Stale(c.rows[c.request.subject], c.request.now) && c.rows[c.request.subject].credential.Some?
    ensures Play(c, [OK, OK] + [OK] + [OK])
         == c.(rows := c.rows[c.request.subject := c.rows[c.request.subject].(status := CleanupRequired)],
               request := c.request.At(Finished(Refused)))
  {
    var q, row := c.request, c.rows[c.request.subject];
    var at := c.(request := q.At(MarkStaleCleanup(row.issueRef, row.credential.value)));
    IssuingRowIsReread(c);
    PlayOne(c, [OK, OK], OK);
    PlayOne(c, [OK, OK] + [OK], OK);
    RereadStep(c.(request := q.At(Reread)));
    FlagStep(at, row.issueRef, row.credential.value);
  }

  lemma ReclaimStep(c: Scene, seen: IssueRef)
    requires c.request.pc == ReclaimStale(seen) && c.request.childKey.None? && IsUntouched(c.rows, c.request.subject, seen)
    ensures var q, s := c.request, c.request.subject;
            RequestStep(c, OK) == c.(rows := c.rows[s := c.rows[s].(issueRef := q.issueRef, reservedAt := q.now)],
                                     request := q.(pc := CheckDailyCap, reservationCreated := true))
  {
  }

  /** A stale reservation that nobody went on with is taken over. */
  lemma StaleReservationIsTakenOver(c: Scene)
    requires Fresh(c.request) && c.request.subject in c.rows && c.rows[c.request.subject].status.Issuing?
    requires var row := c.rows[c.request.subject]; Stale(row, c.request.now) && row.credential.None? && row.startedAt.None?
    ensures var q, s := c.request, c.request.subject;
            Play(c, [OK, OK] + [OK] + [OK])
            == c.(rows := c.rows[s := c.rows[s].(issueRef := q.issueRef, reservedAt := q.now)],
                  request := q.(pc := CheckDailyCap, reservationCreated := true))
  {
    var q, row := c.request, c.rows[c.request.subject];
    IssuingRowIsReread(c);
    PlayOne(c, [OK, OK], OK);
    PlayOne(c, [OK, OK] + [OK], OK);
    RereadStep(c.(request := q.At(Reread)));
    ReclaimStep(c.(request := q.At(ReclaimStale(row.issueRef))), row.issueRef);
  }

  /** The brake refuses a request before it touches anything. */
  lemma BrakeRefuses(c: Scene)
    requires Fresh(c.request)
    ensures Play(c, [Returns(true)]) == c.(request := c.request.At(Finished(Refused)))
  {
    PlaySingle(c, Returns(true));
  }

  lemma CapStep(c: Scene, reached: bool)
    requires c.request.pc == CheckDailyCap && c.request.childKey.None?
    ensures RequestStep(c, Returns(reached)) == c.(request := c.request.At(if reached then ReleaseAtCap else MarkCreationStarted))
  {
  }

  lemma ReleaseAtCapStep(c: Scene)
    requires c.request.pc == ReleaseAtCap && c.request.childKey.None? && IsUntouched(c.rows, c.request.subject, c.request.issueRef)
    ensures RequestStep(c, OK) == c.(rows := c.rows - {c.request.subject},
                                     request := c.request.(pc := Finished(Refused), reservationCreated := false))
  {
  }

  /** At the daily cap the reservation is taken back, and the request refused. */
  lemma CapTakesReservationBack(c: Scene)
    requires c.request.pc == CheckDailyCap && c.request.childKey.None?
    requires IsUntouched(c.rows, c.request.subject, c.request.issueRef)
    ensures Play(c, [Returns(true), OK]) == c.(rows := c.rows - {c.request.subject},
                                               request := c.request.(pc := Finished(Refused), reservationCreated := false))
  {
    PlayTwo(c, Returns(true), OK);
    CapStep(c, true);
    ReleaseAtCapStep(c.(request := c.request.At(ReleaseAtCap)));
  }

  // ---------------------------------------------------------------- issuing

  lemma StartStep(c: Scene)
    requires c.request.pc == MarkCreationStarted && c.request.childKey.None?
    requires IsUntouched(c.rows, c.request.subject, c.request.issueRef)
    ensures var q, s := c.request, c.request.subject;
            RequestStep(c, OK) == c.(rows := c.rows[s := c.rows[s].(startedAt := Some(q.now))],
                                     request := q.(pc := CallCreate, creationStarted := true))
  {
  }

  lemma CallStep(c: Scene)
    requires c.request.pc == CallCreate
    ensures RequestStep(c, OK) == c.(
              provider := c.provider.(inFlight := c.provider.inFlight + {Tag(c.request.subject, c.request.issueRef)}),
              request := c.request.At(AwaitCreate))
  {
  }

  /** A reserved request finds room: its row says so before it asks for a key. */
  lemma ReservedRequestCalls(c: Scene)
    requires c.request.pc == CheckDailyCap && c.request.childKey.None?
    requires IsUntouched(c.rows, c.request.subject, c.request.issueRef)
    ensures var q, s := c.request, c.request.subject;
            Play(c, [OK, OK, OK]) == Scene(
              c.rows[s := c.rows[s].(startedAt := Some(q.now))],
              c.provider.(inFlight := c.provider.inFlight + {Tag(s, q.issueRef)}),
              q.(pc := AwaitCreate, creationStarted := true))
  {
    var q, s := c.request, c.request.subject;
    PlayThree(c, OK, OK, OK);
    CapStep(c, false);
    StartStep(c.(request := q.At(MarkCreationStarted)));
    CallStep(c.(rows := c.rows[s := c.rows[s].(startedAt := Some(q.now))], request := q.(pc := CallCreate, creationStarted := true)));
  }

  lemma CreatedStep(c: Scene, k: KeyHash)
    requires c.request.pc == AwaitCreate && Tag(c.request.subject, c.request.issueRef) in c.provider.inFlight
    requires k !in c.provider.origin
    ensures var p, tag := c.provider, Tag(c.request.subject, c.request.issueRef);
            RequestStep(c, Created(k)) == c.(
              provider := Provider(p.live + {k}, p.origin[k := tag], p.inFlight - {tag}),
              request := c.request.(childKey := Some(k), pc := AttachKey))
  {
  }

  lemma AttachStep(c: Scene, k: KeyHash)
    requires c.request.pc == AttachKey && c.request.childKey == Some(k)
    requires IsStarted(c.rows, c.request.subject, c.request.issueRef)
    ensures var s := c.request.subject;
            RequestStep(c, OK) == c.(rows := c.rows[s := c.rows[s].(credential := Some(k))],
                                     request := c.request.(pc := AssignGuardrail, keyAttached := true))
  {
  }

  /** A client that can acknowledge gets a delivery; one that cannot gets an active key at once. */
  lemma GuardrailStep(c: Scene)
    requires c.request.pc == AssignGuardrail && c.request.childKey.Some?
    ensures RequestStep(c, OK) == c.(request := c.request.At(if c.request.ack then MarkDeliveryPending else Activate))
  {
  }

  lemma DeliverStep(c: Scene, k: KeyHash)
    requires c.request.pc == MarkDeliveryPending && c.request.childKey == Some(k)
    requires HoldsKey(c.rows, c.request.subject, c.request.issueRef, k, {Issuing})
    ensures var s := c.request.subject;
            RequestStep(c, OK) == c.(rows := c.rows[s := c.rows[s].(status := DeliveryPending)], request := c.request.At(CreateDelivery))
  {
  }

  lemma ActivateStep(c: Scene, k: KeyHash)
    requires c.request.pc == Activate && c.request.childKey == Some(k)
    requires HoldsKey(c.rows, c.request.subject, c.request.issueRef, k, {Issuing})
    ensures var s := c.request.subject;
            RequestStep(c, OK) == c.(rows := c.rows[s := c.rows[s].(status := Active)], request := c.request.At(RecordIssueSuccess))
  {
  }

  lemma ReplyStep(c: Scene, k: KeyHash)
    requires (c.request.pc == CreateDelivery || c.request.pc == RecordIssueSuccess) && c.request.childKey == Some(k)
    ensures RequestStep(c, OK) == c.(request := c.request.At(Finished(Issued(k))))
  {
  }

  /** The last two statements: what the row becomes turns on whether the client can acknowledge. */
  lemma GuardedKeyIsDelivered(c: Scene, k: KeyHash, after: Scene)
    requires c.request.pc == (if c.request.ack then MarkDeliveryPending else Activate) && c.request.childKey == Some(k)
    requires HoldsKey(c.rows, c.request.subject, c.request.issueRef, k, {Issuing})
    requires after == Play(c, [OK, OK])
    ensures var s := c.request.subject;
            && after.rows == c.rows[s := c.rows[s].(status := if c.request.ack then DeliveryPending else Active)]
            && after.request.pc == Finished(Issued(k)) && after.provider == c.provider
  {
    PlayTwo(c, OK, OK);
    if c.request.ack { DeliverStep(c, k); } else { ActivateStep(c, k); }
    ReplyStep(RequestStep(c, OK), k);
  }

  lemma KeyIsAttachedAndGuarded(c: Scene, k: KeyHash, after: Scene)
    requires c.request.pc == AttachKey && c.request.childKey == Some(k)
    requires IsStarted(c.rows, c.request.subject, c.request.issueRef)
    requires after == Play(c, [OK, OK])
    ensures var q, s := c.request, c.request.subject;
            && after.rows == c.rows[s := c.rows[s].(credential := Some(k))] && after.provider == c.provider
            && after.request == q.(pc := if q.ack then MarkDeliveryPending else Activate, keyAttached := true)
  {
    var q, s := c.request, c.request.subject;
    PlayTwo(c, OK, OK);
    AttachStep(c, k);
    GuardrailStep(c.(rows := c.rows[s := c.rows[s].(credential := Some(k))], request := q.(pc := AssignGuardrail, keyAttached := true)));
  }

  lemma WrittenTwice(t: Table, s: Subject, row: Row, next: Row)
    ensures t[s := row][s := next] == t[s := next]
  {
  }

  lemma AttachedKeyIsDelivered(c: Scene, k: KeyHash, mid: Scene, after: Scene)
    requires c.request.pc == AttachKey && c.request.childKey == Some(k)
    requires IsStarted(c.rows, c.request.subject, c.request.issueRef)
    requires mid == Play(c, [OK, OK]) && after == Play(mid, [OK, OK])
    ensures var q, s := c.request, c.request.subject;
            && after.rows == c.rows[s := c.rows[s].(credential := Some(k), status := if q.ack then DeliveryPending else Active)]
            && after.request.pc == Finished(Issued(k)) && after.provider == c.provider
  {
    var s := c.request.subject;
    KeyIsAttachedAndGuarded(c, k, mid);
    GuardedKeyIsDelivered(mid, k, after);
    WrittenTwice(c.rows, s, mid.rows[s], after.rows[s]);
  }

  /** The create call made with its row started, and its key. */
  lemma CalledKeyIsCreated(c: Scene, k: KeyHash, called: Scene, created: Scene)
    requires c.request.pc == CheckDailyCap && c.request.childKey.None? && k !in c.provider.origin
    requires IsUntouched(c.rows, c.request.subject, c.request.issueRef)
    requires called == Play(c, [OK, OK, OK]) && created == Play(called, [Created(k)])
    ensures var q, s := c.request, c.request.subject;
            && created.rows == c.rows[s := c.rows[s].(startedAt := Some(q.now))]
            && created.request == q.(pc := AttachKey, creationStarted := true, childKey := Some(k))
            && created.provider.live == c.provider.live + {k}
            && created.provider.origin == c.provider.origin[k := Tag(s, q.issueRef)]
  {
    ReservedRequestCalls(c);
    PlaySingle(called, Created(k));
    CreatedStep(called, k);
  }

  /** From a reservation on, a request whose statements all return ends with its key delivered. */
  lemma ReservationIsIssued(c: Scene, k: KeyHash, called: Scene, created: Scene, guarded: Scene, after: Scene)
    requires c.request.pc == CheckDailyCap && c.request.childKey.None? && k !in c.provider.origin
    requires IsUntouched(c.rows, c.request.subject, c.request.issueRef)
    requires called == Play(c, [OK, OK, OK]) && created == Play(called, [Created(k)])
    requires guarded == Play(created, [OK, OK]) && after == Play(guarded, [OK, OK])
    ensures var q, s := c.request, c.request.subject;
            && after.request.pc == Finished(Issued(k))
            && after.rows == c.rows[s := Row(if q.ack then DeliveryPending else Active, q.issueRef, Some(k),
                                             c.rows[s].reservedAt, Some(q.now))]
            && after.provider.live == c.provider.live + {k}
            && after.provider.origin == c.provider.origin[k := Tag(s, q.issueRef)]
  {
    var s := c.request.subject;
    CalledKeyIsCreated(c, k, called, created);
    AttachedKeyIsDelivered(created, k, guarded, after);
    WrittenTwice(c.rows, s, created.rows[s], after.rows[s]);
  }

  /** The answers when nothing fails: three statements, the call and its key, four statements. */
  function Smooth(k: KeyHash): seq<Answer> { [OK, OK, OK] + [Created(k)] + [OK, OK] + [OK, OK] }

  lemma SmoothReservation(c: Scene, k: KeyHash, after: Scene)
    requires c.request.pc == CheckDailyCap && c.request.childKey.None? && k !in c.provider.origin
    requires IsUntouched(c.rows, c.request.subject, c.request.issueRef)
    requires after == Play(c, Smooth(k))
    ensures var q, s := c.request, c.request.subject;
            && after.request.pc == Finished(Issued(k))
            && after.rows == c.rows[s := Row(if q.ack then DeliveryPending else Active, q.issueRef, Some(k),
                                             c.rows[s].reservedAt, Some(q.now))]
            && after.provider.live == c.provider.live + {k}
            && after.provider.origin == c.provider.origin[k := Tag(s, q.issueRef)]
  {
    var called := Play(c, [OK, OK, OK]);
    var created := Play(called, [Created(k)]);
    var guarded := Play(created, [OK, OK]);
    PlayInFour(c, [OK, OK, OK], called, [Created(k)], created, [OK, OK], guarded, [OK, OK]);
    ReservationIsIssued(c, k, called, created, guarded, after);
  }

  lemma PlayInFour(c: Scene, xs: seq<Answer>, c1: Scene, ys: seq<Answer>, c2: Scene, zs: seq<Answer>, c3: Scene, us: seq<Answer>)
    requires c1 == Play(c, xs) && c2 == Play(c1, ys) && c3 == Play(c2, zs)
    ensures Play(c, xs + ys + zs + us) == Play(c3, us)
  {
    PlayFrom(c, xs, c1, ys, xs + ys);
    PlayFrom(c, xs + ys, c2, zs, xs + ys + zs);
    PlayFrom(c, xs + ys + zs, c3, us, xs + ys + zs + us);
  }

  /**
   A fresh request on a subject without a row, whose answers all return: it replies with the key, and
   the row holds it, delivery-pending exactly when the client can acknowledge and active otherwise.
   */
  lemma FreshRequestIsIssued(c: Scene, k: KeyHash, after: Scene)
    requires Fresh(c.request) && c.request.subject !in c.rows && k !in c.provider.origin
    requires after == Play(c, [OK, OK] + Smooth(k))
    ensures var q, s := c.request, c.request.subject;
            && after.request.pc == Finished(Issued(k))
            && after.rows == c.rows[s := Row(if q.ack then DeliveryPending else Active, q.issueRef, Some(k), q.now, Some(q.now))]
            && after.provider.live == c.provider.live + {k}
            && after.provider.origin == c.provider.origin[k := Tag(s, q.issueRef)]
  {
    var reserved := Play(c, [OK, OK]);
    FreeSubjectIsReserved(c);
    PlayFrom(c, [OK, OK], reserved, Smooth(k), [OK, OK] + Smooth(k));
    ReservedIsIssued(c, c.request.subject, reserved, k, after);
  }

  /** Once the request has its reservation, it does not matter how it came by it. */
  lemma ReservedIsIssued(c: Scene, s: Subject, reserved: Scene, k: KeyHash, after: Scene)
    requires s == c.request.subject && c.request.childKey.None? && k !in c.provider.origin
    requires reserved == c.(rows := c.rows[s := Row(Issuing, c.request.issueRef, None, c.request.now, None)],
                            request := c.request.(pc := CheckDailyCap, reservationCreated := true))
    requires after == Play(reserved, Smooth(k))
    ensures var q := c.request;
            && after.request.pc == Finished(Issued(k))
            && after.rows == c.rows[s := Row(if q.ack then DeliveryPending else Active, q.issueRef, Some(k), q.now, Some(q.now))]
            && after.provider.live == c.provider.live + {k}
            && after.provider.origin == c.provider.origin[k := Tag(s, q.issueRef)]
  {
    SmoothReservation(reserved, k, after);
    WrittenTwice(c.rows, s, reserved.rows[s], after.rows[s]);
  }

  /** The same for a subject whose stale reservation it takes over. */
  lemma TakenOverReservationIsIssued(c: Scene, k: KeyHash, after: Scene)
    requires Fresh(c.request) && c.request.subject in c.rows && c.rows[c.request.subject].status.Issuing?
    requires var row := c.rows[c.request.subject]; Stale(row, c.request.now) && row.credential.None? && row.startedAt.None?
    requires k !in c.provider.origin
    requires after == Play(c, [OK, OK] + [OK] + [OK] + Smooth(k))
    ensures var q, s := c.request, c.request.subject;
            && after.request.pc == Finished(Issued(k))
            && after.rows == c.rows[s := Row(if q.ack then DeliveryPending else Active, q.issueRef, Some(k), q.now, Some(q.now))]
            && after.provider.live == c.provider.live + {k}
  {
    var reserved := Play(c, [OK, OK] + [OK] + [OK]);
    StaleReservationIsTakenOver(c);
    PlayFrom(c, [OK, OK] + [OK] + [OK], reserved, Smooth(k), [OK, OK] + [OK] + [OK] + Smooth(k));
    ReservedIsIssued(c, c.request.subject, reserved, k, after);
  }

  /** The same in the system, where nobody else acts meanwhile. */
  lemma UndisturbedRequestIsIssued(w: World, id: RequestId, s: Subject, r: IssueRef, now: Time, ack: bool, k: KeyHash, begun: World, v: World)
    requires id !in w.requests && r !in w.usedRefs && s !in w.rows && k !in w.provider.origin
    requires begun == Next(w, Begin(id, s, r, now, ack, Plain))
    requires v == Run(begun, Advances(id, [OK, OK] + Smooth(k)))
    ensures id in v.requests && v.requests[id].pc == Finished(Issued(k))
    ensures v.rows == w.rows[s := Row(if ack then DeliveryPending else Active, r, Some(k), now, Some(now))]
    ensures v.provider.live == w.provider.live + {k} && v.provider.origin == w.provider.origin[k := Tag(s, r)]
  {
    var c := Scene(begun.rows, begun.provider, begun.requests[id]);
    PlayIsRun(begun, id, [OK, OK] + Smooth(k));
    FreshRequestIsIssued(c, k, Play(c, [OK, OK] + Smooth(k)));
  }

  // ---------------------------------------------------------------- failing

  /** A definitive rejection frees the row; only a resume leaves it started. */
  lemma RejectedStep(c: Scene)
    requires c.request.pc == AwaitCreate && Tag(c.request.subject, c.request.issueRef) in c.provider.inFlight
    requires c.request.reservationCreated && c.request.childKey.None?
    ensures RequestStep(c, Rejected) == c.(
              provider := c.provider.(inFlight := c.provider.inFlight - {Tag(c.request.subject, c.request.issueRef)}),
              request := c.request.At(if c.request.kind.Resumed? then Finished(Failed) else ReleaseWithoutKey))
  {
  }

  /** A lost answer leaves the row started, unless the request is bound to an operation. */
  lemma LostStep(c: Scene)
    requires c.request.pc == AwaitCreate && c.request.reservationCreated && c.request.creationStarted && c.request.childKey.None?
    ensures RequestStep(c, Lost) == c.(request := c.request.At(if c.request.kind.Bound? then ReleaseWithoutKey else Finished(Failed)))
  {
  }

  lemma ReleaseStep(c: Scene)
    requires c.request.pc == ReleaseWithoutKey
    ensures var q, s := c.request, c.request.subject;
            var own := s in c.rows && c.rows[s].issueRef == q.issueRef && c.rows[s].status.Issuing? && c.rows[s].credential.None?
                       && (c.rows[s].startedAt.Some? <==> q.creationStarted);
            RequestStep(c, OK) == c.(rows := if own then c.rows - {s} else c.rows, request := q.At(Finished(Failed)))
  {
  }

  /** What becomes of the row of a create call that brought no key. */
  lemma FailedCallDecides(c: Scene, a: Answer)
    requires c.request.pc == AwaitCreate && (a == Lost || a == Rejected)
    requires Tag(c.request.subject, c.request.issueRef) in c.provider.inFlight
    requires c.request.reservationCreated && c.request.creationStarted && c.request.childKey.None?
    requires IsStarted(c.rows, c.request.subject, c.request.issueRef)
    ensures var q, s := c.request, c.request.subject;
            var after := Play(c, [a, OK]);
            && after.request.pc == Finished(Failed) && after.provider.live == c.provider.live
            && after.rows == if (a == Rejected && !q.kind.Resumed?) || (a == Lost && q.kind.Bound?) then c.rows - {s} else c.rows
  {
    PlayTwo(c, a, OK);
    if a == Lost { LostStep(c); } else { RejectedStep(c); }
    var d := RequestStep(c, a);
    if d.request.pc.Finished? { FinishedStep(d, OK); } else { ReleaseStep(d); }
  }

  /** A request that fails before it has a reservation ends, and what it read stays. */
  lemma FailureBeforeReservationEnds(c: Scene)
    requires (c.request.pc.ReadRow? || c.request.pc.Insert? || c.request.pc.Reread? || c.request.pc.ReclaimStale?)
    requires c.request.childKey.None? && !c.request.reservationCreated
    ensures RequestStep(c, Throws(false)) == c.(request := c.request.At(Finished(Failed)))
  {
  }

  /** A reserved request that fails before it marks its row started gives its row up. */
  lemma FailureBeforeStartGivesUp(c: Scene)
    requires (c.request.pc == CheckDailyCap || c.request.pc == MarkCreationStarted) && c.request.childKey.None?
    requires c.request.reservationCreated && !c.request.creationStarted
    requires IsUntouched(c.rows, c.request.subject, c.request.issueRef)
    ensures var after := Play(c, [Throws(false), OK]);
            after.rows == c.rows - {c.request.subject} && after.request.pc == Finished(Failed) && after.provider == c.provider
  {
    PlayTwo(c, Throws(false), OK);
    ReleaseStep(c.(request := c.request.At(ReleaseWithoutKey)));
  }

  /** The steps between a key and the reply. */
  predicate Delivering(pc: Pc) {
    pc.AttachKey? || pc.AssignGuardrail? || pc.MarkDeliveryPending? || pc.CreateDelivery? || pc.Activate? || pc.RecordIssueSuccess?
  }

  /** Whichever of them fails, the key is to be cleaned up. */
  lemma FailureAsksForCleanup(c: Scene, applied: bool)
    requires Delivering(c.request.pc) && c.request.childKey.Some? && c.request.reservationCreated
    ensures var after := RequestStep(c, Throws(applied));
            after.request == c.request.At(CleanUpKey) && after.provider == c.provider && (!applied ==> after.rows == c.rows)
  {
  }

  /** And so it is when the row it wants to move has moved on. */
  lemma LostRowAsksForCleanup(c: Scene)
    requires c.request.childKey.Some? && c.request.reservationCreated
    requires (c.request.pc.AttachKey? && !IsStarted(c.rows, c.request.subject, c.request.issueRef))
             || (c.request.pc.MarkDeliveryPending?
                 && !HoldsKey(c.rows, c.request.subject, c.request.issueRef, c.request.childKey.value, {Issuing}))
             || (c.request.pc.Activate?
                 && !HoldsKey(c.rows, c.request.subject, c.request.issueRef, c.request.childKey.value, {Issuing, DeliveryPending}))
    ensures RequestStep(c, OK) == c.(request := c.request.At(CleanUpKey))
  {
  }

  lemma CleanUpStep(c: Scene, a: Answer, k: KeyHash)
    requires c.request.pc == CleanUpKey && c.request.childKey == Some(k) && (a.CleanedUp? || a.CleanupFailed?)
    ensures RequestStep(c, a) == c.(
              provider := if a.CleanedUp? || a.removed then c.provider.(live := c.provider.live - {k}) else c.provider,
              request := c.request.At(if a.CleanedUp? then ReleaseAfterCleanup else MarkCleanup))
  {
  }

  /** The row that the cleanup of this request's key is about. */
  predicate OwnRow(c: Scene, k: KeyHash) {
    if c.request.keyAttached then HoldsKey(c.rows, c.request.subject, c.request.issueRef, k, {Issuing, DeliveryPending, Active})
    else IsStarted(c.rows, c.request.subject, c.request.issueRef)
  }

  lemma ReleaseCleanedStep(c: Scene, k: KeyHash)
    requires c.request.pc == ReleaseAfterCleanup && c.request.childKey == Some(k)
    ensures RequestStep(c, OK) == c.(rows := if OwnRow(c, k) then c.rows - {c.request.subject} else c.rows,
                                     request := c.request.At(Finished(Failed)))
  {
  }

  lemma MarkCleanupStep(c: Scene, k: KeyHash)
    requires c.request.pc == MarkCleanup && c.request.childKey == Some(k)
    ensures var s := c.request.subject;
            RequestStep(c, OK) == c.(
              rows := if OwnRow(c, k) then c.rows[s := c.rows[s].(status := CleanupRequired, credential := Some(k))] else c.rows,
              request := c.request.At(Finished(Failed)))
  {
    var s := c.request.subject;
    if c.request.keyAttached && OwnRow(c, k) {
      assert c.rows[s].(status := CleanupRequired, credential := Some(k)) == c.rows[s].(status := CleanupRequired);
    }
  }

  /** A confirmed cleanup frees the row; an unconfirmed one flags it with the key it may still have. */
  lemma CleanupDecides(c: Scene, a: Answer, k: KeyHash)
    requires c.request.pc == CleanUpKey && c.request.childKey == Some(k) && OwnRow(c, k)
    requires a.CleanedUp? || a.CleanupFailed?
    ensures var s := c.request.subject;
            var after := Play(c, [a, OK]);
            && after.request.pc == Finished(Failed)
            && (a.CleanedUp? ==> after.rows == c.rows - {s} && after.provider.live == c.provider.live - {k})
            && (a.CleanupFailed? ==>
                  after.rows == c.rows[s := c.rows[s].(status := CleanupRequired, credential := Some(k))]
                  && after.provider.live == if a.removed then c.provider.live - {k} else c.provider.live)
  {
    PlayTwo(c, a, OK);
    CleanUpStep(c, a, k);
    var d := RequestStep(c, a);
    if a.CleanedUp? { ReleaseCleanedStep(d, k); } else { MarkCleanupStep(d, k); }
  }

  lemma HandledStep(c: Scene)
    requires c.request.pc == CleanUpKey && c.request.childKey.Some?
    ensures RequestStep(c, Handled) == if c.request.kind.Bound? then c.(request := c.request.At(ReleaseAfterCleanup)) else c
  {
  }

  // ---------------------------------------------------------------- resuming

  lemma StaleReadStep(c: Scene, live: bool)
    requires c.request.pc == ReadStale && c.request.childKey.None?
    ensures var s := c.request.subject;
            var old_ := s in c.rows && c.rows[s].status.DeliveryPending? && c.rows[s].credential.Some?;
            RequestStep(c, Returns(live)) == c.(request := c.request.At(
              if old_ && !live then CleanStale(c.rows[s].credential.value) else ReadRow))
  {
  }

  lemma CleanStaleStep(c: Scene, a: Answer, k: KeyHash)
    requires c.request.pc == CleanStale(k) && c.request.childKey.None? && (a.CleanedUp? || a.CleanupFailed?)
    ensures RequestStep(c, a) == c.(
              provider := if a.CleanedUp? || a.removed then c.provider.(live := c.provider.live - {k}) else c.provider,
              request := c.request.At(if a.CleanedUp? then TakeBackStale(k) else Finished(Refused)))
  {
  }

  lemma TakeBackStep(c: Scene, k: KeyHash)
    requires c.request.pc == TakeBackStale(k) && c.request.childKey.None?
    ensures var s := c.request.subject;
            var held := s in c.rows && c.rows[s].status.DeliveryPending? && c.rows[s].credential == Some(k);
            RequestStep(c, OK) == c.(
              rows := if held then c.rows[s := Row(Issuing, c.rows[s].issueRef, None, c.rows[s].reservedAt, None)] else c.rows,
              request := c.request.At(if held then ReadRow else Finished(Refused)))
  {
  }

  /** A resume first cleans up what an old delivery left, and goes on only if that is confirmed. */
  lemma OldDeliveryIsTakenBack(c: Scene, a: Answer)
    requires c.request.pc == ReadStale && c.request.childKey.None? && (a.CleanedUp? || a.CleanupFailed?)
    requires var s := c.request.subject; s in c.rows && c.rows[s].status.DeliveryPending? && c.rows[s].credential.Some?
    ensures var s := c.request.subject;
            var k, after := c.rows[s].credential.value, Play(c, [OK, a, OK]);
            && (a.CleanedUp? ==>
                  after.rows == c.rows[s := Row(Issuing, c.rows[s].issueRef, None, c.rows[s].reservedAt, None)]
                  && after.request.pc == ReadRow && after.provider.live == c.provider.live - {k})
            && (a.CleanupFailed? ==> after.rows == c.rows && after.request.pc == Finished(Refused))
  {
    var k := c.rows[c.request.subject].credential.value;
    PlayThree(c, OK, a, OK);
    StaleReadStep(c, false);
    var d := c.(request := c.request.At(CleanStale(k)));
    CleanStaleStep(d, a, k);
    var e := RequestStep(d, a);
    if a.CleanedUp? { TakeBackStep(e, k); } else { FinishedStep(e, OK); }
  }

  // ---------------------------------------------------------------- the delivery sweep

  /** A swept key's rows go once its removal is confirmed, and are flagged otherwise; no other row is touched. */
  lemma SweepDecides(w: World, id: RequestId, k: KeyHash, a: Answer)
    requires id in w.sweeps && w.sweeps[id] == SweepClean(k) && (a.CleanedUp? || a.CleanupFailed?)
    ensures var v := SweepStep(w, id, a);
            id in v.sweeps && SweepStep(v, id, OK).sweeps == w.sweeps - {id}
            && var rows := SweepStep(v, id, OK).rows;
               && rows.Keys == (set s | s in w.rows &&
                    !(a.CleanedUp? && w.rows[s].credential == Some(k) && (w.rows[s].status.DeliveryPending? || w.rows[s].status.Active?)))
               && (forall s | s in rows :: rows[s] ==
                     if w.rows[s].credential == Some(k) && (w.rows[s].status.DeliveryPending? || w.rows[s].status.Active?)
                     then w.rows[s].(status := CleanupRequired) else w.rows[s])
               && v.provider.live == if a.CleanedUp? || a.removed then w.provider.live - {k} else w.provider.live
  {
  }

  // ---------------------------------------------------------------- the rest of the system

  /** A new request begins with its row, and a resume, whose client acknowledges, with what an old delivery left. */
  lemma RequestBegins(w: World, id: RequestId, s: Subject, r: IssueRef, now: Time, ack: bool, kind: Kind, v: World)
    requires id !in w.requests && r !in w.usedRefs && v == Next(w, Begin(id, s, r, now, ack, kind))
    ensures v == w.(requests := v.requests, usedRefs := w.usedRefs + {r}) && v.requests.Keys == w.requests.Keys + {id}
    ensures var q := v.requests[id];
            && q.subject == s && q.issueRef == r && q.now == now && q.kind == kind
            && !q.reservationCreated && !q.creationStarted && !q.keyAttached && q.childKey == None
            && (kind == Resumed ==> q.pc == ReadStale && q.ack) && (kind != Resumed ==> q.pc == ReadRow && q.ack == ack)
  {
  }

  /** The acknowledgement of a delivery activates a row that awaits it, and no other. */
  lemma AcknowledgementActivates(w: World, s: Subject)
    ensures s in w.rows && w.rows[s].status == DeliveryPending ==>
              Next(w, Acknowledge(s)) == w.(rows := w.rows[s := w.rows[s].(status := Active)])
    ensures s !in w.rows || w.rows[s].status != DeliveryPending ==> Next(w, Acknowledge(s)) == w
  {
  }

  /** A sweep begins with the cleanup of its key; a worker that dies leaves everything else as it is. */
  lemma WorkersComeAndGo(w: World, id: RequestId, k: KeyHash)
    ensures id !in w.sweeps && k in w.provider.origin ==> Next(w, BeginSweep(id, k)) == w.(sweeps := w.sweeps[id := SweepClean(k)])
    ensures Next(w, Crash(id)) == w.(requests := w.requests - {id}, sweeps := w.sweeps - {id})
  {
  }

  // ---------------------------------------------------------------- under any interleaving

  /** A request is on the path of its kind of client, and knows and replies no key but its own call's. */
  ghost predicate Truthful(p: Provider, q: Request) {
    && (q.pc.MarkDeliveryPending? || q.pc.CreateDelivery? ==> q.ack)
    && (q.pc.Activate? || q.pc.RecordIssueSuccess? ==> !q.ack)
    && (q.childKey.Some? ==> q.childKey.value in p.origin && p.origin[q.childKey.value] == Tag(q.subject, q.issueRef))
    && (q.pc.Finished? && q.pc.reply.Issued? ==> q.childKey == Some(q.pc.reply.key))
  }

  ghost predicate KeepsOrigin(p: Provider, p': Provider) {
    forall k :: k in p.origin ==> k in p'.origin && p'.origin[k] == p.origin[k]
  }

  /** The step tells the truth, and does not change who the request is. */
  ghost predicate Told(c: Scene, d: Scene) {
    && Truthful(d.provider, d.request) && KeepsOrigin(c.provider, d.provider)
    && d.request.subject == c.request.subject && d.request.issueRef == c.request.issueRef && d.request.ack == c.request.ack
  }

  predicate SameClient(q: Request, next: Request) {
    next.subject == q.subject && next.issueRef == q.issueRef && next.ack == q.ack
  }

  lemma CatchIsTruthful(p: Provider, q: Request, definitive: bool)
    requires Truthful(p, q)
    ensures Truthful(p, Catch(q, definitive)) && SameClient(q, Catch(q, definitive))
  {
  }

  lemma StatementTold(c: Scene, rows: Table, next: Request, a: Answer, d: Scene)
    requires Truthful(c.provider, c.request) && Truthful(c.provider, next) && SameClient(c.request, next)
    requires d == Statement(c, rows, next, a)
    ensures Told(c, d)
  {
    CatchIsTruthful(c.provider, c.request, false);
  }

  lemma FinalStatementTold(c: Scene, rows: Table, reply: Reply, a: Answer, d: Scene)
    requires Truthful(c.provider, c.request) && !reply.Issued?
    requires d == FinalStatement(c, rows, reply, a)
    ensures Told(c, d)
  {
  }

  lemma ConflictTold(t: Table, p: Provider, q: Request)
    requires Truthful(p, q)
    ensures Truthful(p, AfterConflict(t, q)) && SameClient(q, AfterConflict(t, q))
  {
  }

  lemma StaleTold(c: Scene, a: Answer, d: Scene)
    requires Truthful(c.provider, c.request) && d == ReserveStep(c, a)
    requires c.request.pc.ReadStale? || c.request.pc.CleanStale? || c.request.pc.TakeBackStale?
    ensures Told(c, d)
  {
  }

  lemma LookTold(c: Scene, a: Answer, d: Scene)
    requires Truthful(c.provider, c.request) && d == ReserveStep(c, a)
    requires c.request.pc.ReadRow? || c.request.pc.Insert? || c.request.pc.Reread?
    ensures Told(c, d)
  {
    var q, s, t := c.request, c.request.subject, c.rows;
    match q.pc
    case ReadRow =>
      StatementTold(c, t, q.At(if LifetimeBlocking(t, s) || (a.Returns? && a.flag) then Finished(Refused) else Insert), a, d);
    case Insert =>
      StatementTold(c, InsertReservation(t, s, q.issueRef, q.now),
        if s in t then q.At(Reread) else q.(pc := CheckDailyCap, reservationCreated := true), a, d);
    case Reread =>
      ConflictTold(t, c.provider, q);
      StatementTold(c, t, AfterConflict(t, q), a, d);
  }

  lemma TakeOverTold(c: Scene, a: Answer, d: Scene)
    requires Truthful(c.provider, c.request) && d == ReserveStep(c, a)
    requires c.request.pc.MarkStaleCleanup? || c.request.pc.ReclaimStale?
    ensures Told(c, d)
  {
    var q, s, t := c.request, c.request.subject, c.rows;
    match q.pc
    case MarkStaleCleanup(seen, k) =>
      FinalStatementTold(c, SetStatus(t, s, seen, k, {Issuing}, CleanupRequired), Refused, a, d);
    case ReclaimStale(seen) =>
      StatementTold(c, Reclaim(t, s, seen, q.issueRef, q.now),
        if Untouched(t, s, seen) then q.(pc := CheckDailyCap, reservationCreated := true) else q.At(Finished(Refused)), a, d);
  }

  lemma StartTold(c: Scene, a: Answer, d: Scene)
    requires Truthful(c.provider, c.request) && d == ReserveStep(c, a)
    requires c.request.pc.CheckDailyCap? || c.request.pc.ReleaseAtCap? || c.request.pc.MarkCreationStarted?
    ensures Told(c, d)
  {
    var q, s, r, t := c.request, c.request.subject, c.request.issueRef, c.rows;
    match q.pc
    case CheckDailyCap =>
      StatementTold(c, t, q.At(if a.Returns? && a.flag then ReleaseAtCap else MarkCreationStarted), a, d);
    case ReleaseAtCap =>
      StatementTold(c, ReleaseUnstarted(t, s, r), q.(pc := Finished(Refused), reservationCreated := false), a, d);
    case MarkCreationStarted =>
      CatchIsTruthful(c.provider, q, false);
      StatementTold(c, MarkStarted(t, s, r, q.now),
        if Untouched(t, s, r) then q.(pc := CallCreate, creationStarted := true) else Catch(q, false), a, d);
  }

  lemma ReserveTold(c: Scene, a: Answer, d: Scene)
    requires Truthful(c.provider, c.request) && d == ReserveStep(c, a)
    ensures Told(c, d)
  {
    var pc := c.request.pc;
    if pc.ReadStale? || pc.CleanStale? || pc.TakeBackStale? { StaleTold(c, a, d); }
    else if pc.ReadRow? || pc.Insert? || pc.Reread? { LookTold(c, a, d); }
    else if pc.MarkStaleCleanup? || pc.ReclaimStale? { TakeOverTold(c, a, d); }
    else if pc.CheckDailyCap? || pc.ReleaseAtCap? || pc.MarkCreationStarted? { StartTold(c, a, d); }
  }

  lemma CreateTold(c: Scene, a: Answer, d: Scene)
    requires Truthful(c.provider, c.request) && (c.request.pc.CallCreate? || c.request.pc.AwaitCreate?)
    requires d == CreateStep(c, a)
    ensures Told(c, d)
  {
    CatchIsTruthful(c.provider, c.request, true);
    CatchIsTruthful(c.provider, c.request, false);
  }

  lemma CleanUpTold(c: Scene, a: Answer, d: Scene)
    requires Truthful(c.provider, c.request) && c.request.childKey.Some? && d == KeyStep(c, a)
    requires c.request.pc.CleanUpKey? || c.request.pc.ReleaseAfterCleanup? || c.request.pc.MarkCleanup?
    ensures Told(c, d)
  {
  }

  lemma AttachTold(c: Scene, a: Answer, d: Scene)
    requires Truthful(c.provider, c.request) && c.request.childKey.Some? && d == KeyStep(c, a)
    requires c.request.pc.AttachKey? || c.request.pc.AssignGuardrail?
    ensures Told(c, d)
  {
    var q, s, r, t, k := c.request, c.request.subject, c.request.issueRef, c.rows, c.request.childKey.value;
    CatchIsTruthful(c.provider, q, false);
    if q.pc.AttachKey? {
      StatementTold(c, Attach(t, s, r, k),
        if StartedUnattached(t, s, r) then q.(pc := AssignGuardrail, keyAttached := true) else Catch(q, false), a, d);
    } else {
      StatementTold(c, t, q.At(if q.ack then MarkDeliveryPending else Activate), a, d);
    }
  }

  lemma StatusTold(c: Scene, a: Answer, d: Scene)
    requires Truthful(c.provider, c.request) && c.request.childKey.Some? && d == KeyStep(c, a)
    requires c.request.pc.MarkDeliveryPending? || c.request.pc.Activate?
    ensures Told(c, d)
  {
    var q, s, r, t, k := c.request, c.request.subject, c.request.issueRef, c.rows, c.request.childKey.value;
    CatchIsTruthful(c.provider, q, false);
    if q.pc.MarkDeliveryPending? {
      StatementTold(c, SetStatus(t, s, r, k, {Issuing}, DeliveryPending),
        if Holding(t, s, r, k, {Issuing}) then q.At(CreateDelivery) else Catch(q, false), a, d);
    } else {
      StatementTold(c, SetStatus(t, s, r, k, {Issuing, DeliveryPending}, Active),
        if Holding(t, s, r, k, {Issuing, DeliveryPending}) then q.At(RecordIssueSuccess) else Catch(q, false), a, d);
    }
  }

  lemma ReplyTold(c: Scene, a: Answer, d: Scene)
    requires Truthful(c.provider, c.request) && c.request.childKey.Some? && d == KeyStep(c, a)
    requires c.request.pc.CreateDelivery? || c.request.pc.RecordIssueSuccess?
    ensures Told(c, d)
  {
    var q, k := c.request, c.request.childKey.value;
    StatementTold(c, c.rows,
      q.At(Finished(if q.pc.CreateDelivery? && q.kind.Resumed? && a.Returns? && a.flag then Failed else Issued(k))), a, d);
  }

  lemma KeyTold(c: Scene, a: Answer, d: Scene)
    requires Truthful(c.provider, c.request) && c.request.childKey.Some? && d == KeyStep(c, a)
    ensures Told(c, d)
  {
    var pc := c.request.pc;
    if pc.AttachKey? || pc.AssignGuardrail? { AttachTold(c, a, d); }
    else if pc.MarkDeliveryPending? || pc.Activate? { StatusTold(c, a, d); }
    else if pc.CreateDelivery? || pc.RecordIssueSuccess? { ReplyTold(c, a, d); }
    else if pc.CleanUpKey? || pc.ReleaseAfterCleanup? || pc.MarkCleanup? { CleanUpTold(c, a, d); }
  }

  lemma StepTold(c: Scene, a: Answer, d: Scene)
    requires Truthful(c.provider, c.request) && d == RequestStep(c, a)
    ensures Told(c, d)
  {
    match c.request.pc
    case CallCreate => CreateTold(c, a, d);
    case AwaitCreate => CreateTold(c, a, d);
    case ReleaseWithoutKey =>
      var q := c.request;
      FinalStatementTold(c,
        if q.creationStarted then ReleaseStarted(c.rows, q.subject, q.issueRef)
        else ReleaseUnstarted(c.rows, q.subject, q.issueRef), Failed, a, d);
    case Finished(_) =>
    case _ => if c.request.childKey.Some? { KeyTold(c, a, d); } else { ReserveTold(c, a, d); }
  }

  ghost predicate AllTruthful(w: World) {
    forall id | id in w.requests :: Truthful(w.provider, w.requests[id])
  }

  lemma OriginKeepsTruth(p: Provider, p': Provider, q: Request)
    requires Truthful(p, q) && KeepsOrigin(p, p')
    ensures Truthful(p', q)
  {
  }

  lemma AdvanceKeepsTruth(w: World, id: RequestId, d: Scene, v: World)
    requires AllTruthful(w) && id in w.requests && Told(Scene(w.rows, w.provider, w.requests[id]), d)
    requires v == w.(rows := d.rows, provider := d.provider, requests := w.requests[id := d.request])
    ensures AllTruthful(v)
  {
    forall x | x in v.requests
      ensures Truthful(v.provider, v.requests[x])
    {
      if x != id { OriginKeepsTruth(w.provider, v.provider, w.requests[x]); }
    }
  }

  lemma OthersKeepTruth(w: World, v: World)
    requires AllTruthful(w) && KeepsOrigin(w.provider, v.provider)
    requires forall x :: x in v.requests ==> (x in w.requests && v.requests[x] == w.requests[x]) || Truthful(v.provider, v.requests[x])
    ensures AllTruthful(v)
  {
    forall x | x in v.requests
      ensures Truthful(v.provider, v.requests[x])
    {
      if x in w.requests && v.requests[x] == w.requests[x] { OriginKeepsTruth(w.provider, v.provider, w.requests[x]); }
    }
  }

  lemma SweepKeepsOrigin(w: World, id: RequestId, a: Answer, v: World)
    requires id in w.sweeps && v == SweepStep(w, id, a)
    ensures v.requests == w.requests && v.provider.origin == w.provider.origin
  {
  }

  lemma NextKeepsTruth(w: World, action: Action, v: World)
    requires AllTruthful(w) && v == Next(w, action)
    ensures AllTruthful(v)
  {
    if action.Advance? && action.id in w.requests {
      var c := Scene(w.rows, w.provider, w.requests[action.id]);
      var d := RequestStep(c, action.answer);
      StepTold(c, action.answer, d);
      AdvanceKeepsTruth(w, action.id, d, v);
    } else if action.AdvanceSweep? && action.id in w.sweeps {
      SweepKeepsOrigin(w, action.id, action.answer, v);
      OthersKeepTruth(w, v);
    } else {
      OthersKeepTruth(w, v);
    }
  }

  lemma {:induction false} RunKeepsTruth(actions: seq<Action>)
    ensures AllTruthful(Run(EmptyWorld, actions))
    decreases |actions|
  {
    if actions != [] {
      var n := |actions| - 1;
      RunKeepsTruth(actions[..n]);
      NextKeepsTruth(Run(EmptyWorld, actions[..n]), actions[n], Run(EmptyWorld, actions));
    }
  }

  /** In every run, a request that replies with a key replies with the key its own create call made. */
  lemma RepliedKeyIsOwn(actions: seq<Action>, id: RequestId, k: KeyHash)
    requires var w := Run(EmptyWorld, actions); id in w.requests && w.requests[id].pc == Finished(Issued(k))
    ensures var w := Run(EmptyWorld, actions);
            k in w.provider.origin && w.provider.origin[k] == Tag(w.requests[id].subject, w.requests[id].issueRef)
  {
    RunKeepsTruth(actions);
  }

  // ---------------------------------------------------------------- who sets which status

  /** The row of `s` is newly in the status `x`. */
  predicate Enters(t: Table, t': Table, s: Subject, x: Status) {
    s in t' && t'[s].status == x && (s in t ==> t[s].status != x)
  }

  /** A statement after which no row is newly active, awaiting delivery or revoked. */
  ghost predicate Passive(t: Table, t': Table) {
    forall s :: !Enters(t, t', s, Active) && !Enters(t, t', s, DeliveryPending) && !Enters(t, t', s, Revoked)
  }

  lemma PassiveStatements(t: Table, s: Subject, r: IssueRef, seen: IssueRef, k: KeyHash, now: Time)
    ensures Passive(t, t) && Passive(t, ResetStale(t, s, k))
    ensures Passive(t, InsertReservation(t, s, r, now)) && Passive(t, Reclaim(t, s, seen, r, now))
    ensures Passive(t, MarkStarted(t, s, r, now)) && Passive(t, Attach(t, s, r, k))
    ensures Passive(t, ReleaseUnstarted(t, s, r)) && Passive(t, ReleaseStarted(t, s, r)) && Passive(t, ReleaseCleaned(t, s, r, k))
    ensures Passive(t, MarkUnattachedCleanup(t, s, r, k))
  {
  }

  lemma FlaggingIsPassive(t: Table, s: Subject, r: IssueRef, k: KeyHash, from: set<Status>)
    ensures Passive(t, SetStatus(t, s, r, k, from, CleanupRequired))
  {
  }

  /** The row held key `k` for this request before it was newly in the status. */
  predicate HeldByRequest(t: Table, q: Request, s: Subject) {
    s == q.subject && s in t && t[s].issueRef == q.issueRef && t[s].credential.Some? && t[s].credential == q.childKey
  }

  lemma ReserveIsPassive(c: Scene, a: Answer, d: Scene)
    requires d == ReserveStep(c, a)
    ensures Passive(c.rows, d.rows)
  {
    var q, t := c.request, c.rows;
    var seen := if q.pc.ReclaimStale? || q.pc.MarkStaleCleanup? then q.pc.seenRef else "";
    var k := if q.pc.MarkStaleCleanup? then q.pc.seenKey else if q.pc.TakeBackStale? then q.pc.stale else "";
    PassiveStatements(t, q.subject, q.issueRef, seen, k, q.now);
    FlaggingIsPassive(t, q.subject, seen, k, {Issuing});
  }

  lemma KeyIsPassive(c: Scene, a: Answer, d: Scene)
    requires c.request.childKey.Some? && d == KeyStep(c, a) && !c.request.pc.Activate? && !c.request.pc.MarkDeliveryPending?
    ensures Passive(c.rows, d.rows)
  {
    var q, t, k := c.request, c.rows, c.request.childKey.value;
    PassiveStatements(t, q.subject, q.issueRef, "", k, q.now);
    FlaggingIsPassive(t, q.subject, q.issueRef, k, {Issuing, DeliveryPending, Active});
  }

  lemma StatusIsEntered(c: Scene, a: Answer, d: Scene, s: Subject)
    requires c.request.childKey.Some? && d == KeyStep(c, a) && (c.request.pc.Activate? || c.request.pc.MarkDeliveryPending?)
    ensures Enters(c.rows, d.rows, s, Active) ==> c.request.pc.Activate? && HeldByRequest(c.rows, c.request, s)
    ensures Enters(c.rows, d.rows, s, DeliveryPending) ==> c.request.pc.MarkDeliveryPending? && HeldByRequest(c.rows, c.request, s)
    ensures !Enters(c.rows, d.rows, s, Revoked)
  {
  }

  lemma StepEnters(c: Scene, a: Answer, d: Scene, s: Subject)
    requires Truthful(c.provider, c.request) && d == RequestStep(c, a)
    ensures Enters(c.rows, d.rows, s, Active) ==> !c.request.ack && HeldByRequest(c.rows, c.request, s)
    ensures Enters(c.rows, d.rows, s, DeliveryPending) ==> c.request.ack && HeldByRequest(c.rows, c.request, s)
    ensures !Enters(c.rows, d.rows, s, Revoked)
  {
    var q := c.request;
    if q.pc.CallCreate? || q.pc.AwaitCreate? {
      CreateLeavesRows(c, a, d);
    } else if q.pc.ReleaseWithoutKey? {
      PassiveStatements(c.rows, q.subject, q.issueRef, "", "", q.now);
    } else if q.pc.Finished? {
    } else if q.childKey.None? {
      ReserveIsPassive(c, a, d);
    } else if q.pc.Activate? || q.pc.MarkDeliveryPending? {
      StatusIsEntered(c, a, d, s);
    } else {
      KeyIsPassive(c, a, d);
    }
  }

  lemma CreateLeavesRows(c: Scene, a: Answer, d: Scene)
    requires (c.request.pc.CallCreate? || c.request.pc.AwaitCreate?) && d == CreateStep(c, a)
    ensures d.rows == c.rows
  {
  }

  /**
   In every run, a request turns a row active only if its client cannot acknowledge, and makes it
   await its delivery only if the client can; it is the request's own row, holding the request's own key.
   */
  lemma StatusFollowsAck(actions: seq<Action>, id: RequestId, a: Answer, s: Subject)
    requires id in Run(EmptyWorld, actions).requests
    ensures var w := Run(EmptyWorld, actions);
            var q, v := w.requests[id], Next(w, Advance(id, a));
            && (Enters(w.rows, v.rows, s, Active) ==> !q.ack && HeldByRequest(w.rows, q, s))
            && (Enters(w.rows, v.rows, s, DeliveryPending) ==> q.ack && HeldByRequest(w.rows, q, s))
            && !Enters(w.rows, v.rows, s, Revoked)
  {
    var w := Run(EmptyWorld, actions);
    var c := Scene(w.rows, w.provider, w.requests[id]);
    RunKeepsTruth(actions);
    StepEnters(c, a, RequestStep(c, a), s);
  }

  lemma OnlyRequestsAndAcksActivate(w: World, action: Action, v: World, s: Subject)
    requires AllTruthful(w) && v == Next(w, action) && Enters(w.rows, v.rows, s, Active)
    ensures || (action == Acknowledge(s) && s in w.rows && w.rows[s].status.DeliveryPending?)
            || (action.Advance? && action.id in w.requests && !w.requests[action.id].ack && HeldByRequest(w.rows, w.requests[action.id], s))
  {
    if action.Advance? && action.id in w.requests {
      var c := Scene(w.rows, w.provider, w.requests[action.id]);
      StepEnters(c, action.answer, RequestStep(c, action.answer), s);
    }
  }

  /**
   In every run, a row becomes active only through the acknowledgement of its delivery, or through a
   request whose client cannot acknowledge and whose own key the row holds.
   */
  lemma RowsBecomeActiveOnlyBy(actions: seq<Action>, action: Action, s: Subject)
    requires Enters(Run(EmptyWorld, actions).rows, Next(Run(EmptyWorld, actions), action).rows, s, Active)
    ensures var w := Run(EmptyWorld, actions);
            || (action == Acknowledge(s) && s in w.rows && w.rows[s].status.DeliveryPending?)
            || (action.Advance? && action.id in w.requests && !w.requests[action.id].ack && HeldByRequest(w.rows, w.requests[action.id], s))
  {
    var w := Run(EmptyWorld, actions);
    RunKeepsTruth(actions);
    OnlyRequestsAndAcksActivate(w, action, Next(w, action), s);
  }
}
