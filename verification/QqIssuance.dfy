/**
 The QQ issuance protocol of qq-managed-issue.ts, one SQL statement or provider call per step: fresh
 issuance, with or without a managed operation, and the issuance that resumes an operation.

 Any number of requests, delivery sweeps, late provider effects and crashes interleave.  The
 result is that a subject never has two keys that are live or still being created, although every
 statement may throw with or without its effect and the create call may end in an unknown outcome.
 */
module QqIssuance {
  import opened Common

  type Subject = string
  type IssueRef = string
  type KeyHash = string
  type RequestId = string
  type Time = int

  const STALE_ISSUING_TTL_MS: int := 15 * 60_000

  datatype Status = Issuing | DeliveryPending | Active | CleanupRequired | Revoked

  /** The columns of qq_managed_entitlements that some guard reads. */
  datatype Row = Row(
    status: Status, issueRef: IssueRef, credential: Option<KeyHash>,
    reservedAt: Time, startedAt: Option<Time>)

  type Table = map<Subject, Row>

  // ---------------------------------------------------------------- statements

  /** The row is an untouched reservation of this request. */
  predicate Untouched(t: Table, s: Subject, r: IssueRef) {
    s in t && t[s].issueRef == r && t[s].status == Issuing && t[s].credential.None? && t[s].startedAt.None?
  }

  /** The row says that a child key may be being created and none is attached. */
  predicate StartedUnattached(t: Table, s: Subject, r: IssueRef) {
    s in t && t[s].issueRef == r && t[s].status == Issuing && t[s].credential.None? && t[s].startedAt.Some?
  }

  /** The row of this request holds key `k` in one of the given statuses. */
  predicate Holding(t: Table, s: Subject, r: IssueRef, k: KeyHash, statuses: set<Status>) {
    s in t && t[s].issueRef == r && t[s].credential == Some(k) && t[s].status in statuses
  }

  function InsertReservation(t: Table, s: Subject, r: IssueRef, now: Time): Table {
    if s in t then t else t[s := Row(Issuing, r, None, now, None)]
  }

  function Reclaim(t: Table, s: Subject, seen: IssueRef, r: IssueRef, now: Time): Table {
    if Untouched(t, s, seen) then t[s := t[s].(issueRef := r, reservedAt := now)] else t
  }

  function MarkStarted(t: Table, s: Subject, r: IssueRef, now: Time): Table {
    if Untouched(t, s, r) then t[s := t[s].(startedAt := Some(now))] else t
  }

  function Attach(t: Table, s: Subject, r: IssueRef, k: KeyHash): Table {
    if StartedUnattached(t, s, r) then t[s := t[s].(credential := Some(k))] else t
  }

  function SetStatus(t: Table, s: Subject, r: IssueRef, k: KeyHash, from: set<Status>, to: Status): Table {
    if Holding(t, s, r, k, from) then t[s := t[s].(status := to)] else t
  }

  /** resetStaleQqReservationForRetry: back to an untouched reservation of the same reference. */
  function ResetStale(t: Table, s: Subject, k: KeyHash): Table {
    if HoldsDelivery(t, s, k) then t[s := t[s].(status := Issuing, credential := None, startedAt := None)] else t
  }

  predicate HoldsDelivery(t: Table, s: Subject, k: KeyHash) {
    s in t && t[s].status == DeliveryPending && t[s].credential == Some(k)
  }

  function ReleaseUnstarted(t: Table, s: Subject, r: IssueRef): Table {
    if Untouched(t, s, r) then t - {s} else t
  }

  function ReleaseStarted(t: Table, s: Subject, r: IssueRef): Table {
    if StartedUnattached(t, s, r) then t - {s} else t
  }

  function ReleaseCleaned(t: Table, s: Subject, r: IssueRef, k: KeyHash): Table {
    if Holding(t, s, r, k, {Issuing, DeliveryPending, Active}) then t - {s} else t
  }

  function MarkUnattachedCleanup(t: Table, s: Subject, r: IssueRef, k: KeyHash): Table {
    if StartedUnattached(t, s, r) then t[s := t[s].(status := CleanupRequired, credential := Some(k))] else t
  }

  /** The delivery sweep selects rows by credential alone. */
  predicate SweptBy(row: Row, k: KeyHash) {
    row.credential == Some(k) && row.status in {DeliveryPending, Active}
  }

  function SweepDelete(t: Table, k: KeyHash): Table {
    map s | s in t && !SweptBy(t[s], k) :: t[s]
  }

  function SweepMark(t: Table, k: KeyHash): Table {
    map s | s in t :: if SweptBy(t[s], k) then t[s].(status := CleanupRequired) else t[s]
  }

  predicate LifetimeBlocking(t: Table, s: Subject) {
    s in t && t[s].status in {Active, DeliveryPending, CleanupRequired, Revoked}
  }

  // ---------------------------------------------------------------- provider

  /** The create call of one request. */
  datatype Tag = Tag(subject: Subject, issueRef: IssueRef)

  /**
   `live` are the usable keys, `origin` says for every key ever created which call made it, and
   `inFlight` are the create calls that may still take effect.
   */
  datatype Provider = Provider(live: set<KeyHash>, origin: map<KeyHash, Tag>, inFlight: set<Tag>)

  function Creates(p: Provider, t: Tag, k: KeyHash): Provider
    requires t in p.inFlight && k !in p.origin
  {
    Provider(p.live + {k}, p.origin[k := t], p.inFlight - {t})
  }

  // ---------------------------------------------------------------- requests

  /** A fresh request without an operation, a fresh one bound to an operation, or the resume of one. */
  datatype Kind = Plain | Bound | Resumed

  datatype Reply = Refused | Issued(key: KeyHash) | Failed

  /** The statement or call a request performs next. */
  datatype Pc =
    | ReadStale
    | CleanStale(stale: KeyHash)
    | TakeBackStale(stale: KeyHash)
    | ReadRow
    | Insert
    | Reread
    | MarkStaleCleanup(seenRef: IssueRef, seenKey: KeyHash)
    | ReclaimStale(seenRef: IssueRef)
    | CheckDailyCap
    | ReleaseAtCap
    | MarkCreationStarted
    | CallCreate
    | AwaitCreate
    | AttachKey
    | AssignGuardrail
    | MarkDeliveryPending
    | CreateDelivery
    | Activate
    | RecordIssueSuccess
    | CleanUpKey
    | ReleaseAfterCleanup
    | MarkCleanup
    | ReleaseWithoutKey
    | Finished(reply: Reply)

  /** One request with the local flags that its catch block reads. */
  datatype Request = Request(
    subject: Subject, issueRef: IssueRef, now: Time, ack: bool, kind: Kind, pc: Pc,
    reservationCreated: bool, creationStarted: bool, childKey: Option<KeyHash>, keyAttached: bool)
  {
    function CallTag(): Tag { Tag(subject, issueRef) }

    function At(next: Pc): Request { this.(pc := next) }
  }

  /** What the environment answers to one step. */
  datatype Answer =
    | Returns(flag: bool)            // the statement runs; `flag` is the brake, the cap or another obstacle
    | Throws(applied: bool)          // the statement throws, having taken effect or not
    | Created(key: KeyHash)          // the create call returns a key
    | Rejected                       // a definitive 4xx, nothing was created
    | Lost                           // no usable answer, the call may still take effect
    | CleanedUp                      // disable and delete both confirmed
    | CleanupFailed(removed: bool)   // not confirmed, the key may be gone
    | Handled                        // the reconcile of the operation reported it retryable: no cleanup is asked for

  /** The catch block, as a function of the flags it reads. */
  function Catch(q: Request, definitive: bool): Request {
    if !q.reservationCreated || (q.kind.Resumed? && definitive) then q.At(Finished(Failed))
    else if q.childKey.Some? then q.At(CleanUpKey)
    else if !q.creationStarted || definitive || q.kind.Bound? then q.At(ReleaseWithoutKey)
    else q.At(Finished(Failed))
  }

  /** What one request step reads and writes. */
  datatype Scene = Scene(rows: Table, provider: Provider, request: Request)

  /** A statement inside the try block. */
  function Statement(c: Scene, rows: Table, next: Request, a: Answer): Scene {
    match a
    case Returns(_) => c.(rows := rows, request := next)
    case Throws(applied) => c.(rows := if applied then rows else c.rows, request := Catch(c.request, false))
    case _ => c
  }

  /** The last statement of a path whose failure is swallowed or ends the request. */
  function FinalStatement(c: Scene, rows: Table, reply: Reply, a: Answer): Scene {
    match a
    case Returns(_) => c.(rows := rows, request := c.request.At(Finished(reply)))
    case Throws(applied) => c.(rows := if applied then rows else c.rows, request := c.request.At(Finished(reply)))
    case _ => c
  }

  /** The decision after the insert met an existing row. */
  function AfterConflict(t: Table, q: Request): Request {
    if q.subject !in t || LifetimeBlocking(t, q.subject) then q.At(Finished(Refused))
    else
      var row := t[q.subject];
      if q.now - row.reservedAt < STALE_ISSUING_TTL_MS then q.At(Finished(Refused))
      else if row.credential.Some? then q.At(MarkStaleCleanup(row.issueRef, row.credential.value))
      else if row.startedAt.Some? then q.At(Finished(Refused))
      else q.At(ReclaimStale(row.issueRef))
  }

  /** A resume first gives up what an earlier delivery left, unless that delivery is live. */
  function AfterStaleRead(t: Table, q: Request, a: Answer): Request {
    if q.subject in t && t[q.subject].status == DeliveryPending && t[q.subject].credential.Some? && !(a.Returns? && a.flag)
    then q.At(CleanStale(t[q.subject].credential.value)) else q.At(ReadRow)
  }

  /** The reservation half of the handler, up to the create call. */
  function ReserveStep(c: Scene, a: Answer): Scene {
    var q, s, r, t := c.request, c.request.subject, c.request.issueRef, c.rows;
    match q.pc
    case ReadStale =>
      Statement(c, t, AfterStaleRead(t, q, a), a)
    case CleanStale(k) => (
      match a
      case CleanedUp =>
        c.(provider := c.provider.(live := c.provider.live - {k}), request := q.At(TakeBackStale(k)))
      case CleanupFailed(removed) =>
        c.(provider := if removed then c.provider.(live := c.provider.live - {k}) else c.provider,
           request := q.At(Finished(Refused)))
      case _ => c)
    case TakeBackStale(k) =>
      Statement(c, ResetStale(t, s, k), q.At(if HoldsDelivery(t, s, k) then ReadRow else Finished(Refused)), a)
    case ReadRow =>
      Statement(c, t, q.At(if LifetimeBlocking(t, s) || (a.Returns? && a.flag) then Finished(Refused) else Insert), a)
    case Insert =>
      Statement(c, InsertReservation(t, s, r, q.now),
        if s in t then q.At(Reread) else q.(pc := CheckDailyCap, reservationCreated := true), a)
    case Reread =>
      Statement(c, t, AfterConflict(t, q), a)
    case MarkStaleCleanup(seen, k) =>
      FinalStatement(c, SetStatus(t, s, seen, k, {Issuing}, CleanupRequired), Refused, a)
    case ReclaimStale(seen) =>
      Statement(c, Reclaim(t, s, seen, r, q.now),
        if Untouched(t, s, seen) then q.(pc := CheckDailyCap, reservationCreated := true) else q.At(Finished(Refused)), a)
    case CheckDailyCap =>
      Statement(c, t, q.At(if a.Returns? && a.flag then ReleaseAtCap else MarkCreationStarted), a)
    case ReleaseAtCap =>
      Statement(c, ReleaseUnstarted(t, s, r), q.(pc := Finished(Refused), reservationCreated := false), a)
    case MarkCreationStarted =>
      Statement(c, MarkStarted(t, s, r, q.now),
        if Untouched(t, s, r) then q.(pc := CallCreate, creationStarted := true) else Catch(q, false), a)
    case _ => c
  }

  /** The create call: the request leaves, and later an answer arrives or does not. */
  function CreateStep(c: Scene, a: Answer): Scene {
    var q, p, tag := c.request, c.provider, c.request.CallTag();
    if q.pc == CallCreate then
      c.(provider := p.(inFlight := p.inFlight + {tag}), request := q.At(AwaitCreate))
    else
      match a
      case Created(k) =>
        var known := q.(childKey := Some(k), pc := AttachKey);
        if tag in p.inFlight && k !in p.origin then c.(provider := Creates(p, tag, k), request := known)
        else if k in p.origin && p.origin[k] == tag then c.(request := known)
        else c
      case Rejected =>
        if tag in p.inFlight then c.(provider := p.(inFlight := p.inFlight - {tag}), request := Catch(q, true)) else c
      case Lost => c.(request := Catch(q, false))
      case _ => c
  }

  /** The half that owns a key: attach, deliver or clean up. */
  function KeyStep(c: Scene, a: Answer): Scene
    requires c.request.childKey.Some?
  {
    var q, s, r, t, k := c.request, c.request.subject, c.request.issueRef, c.rows, c.request.childKey.value;
    match q.pc
    case AttachKey =>
      Statement(c, Attach(t, s, r, k),
        if StartedUnattached(t, s, r) then q.(pc := AssignGuardrail, keyAttached := true) else Catch(q, false), a)
    case AssignGuardrail =>
      Statement(c, t, q.At(if q.ack then MarkDeliveryPending else Activate), a)
    case MarkDeliveryPending =>
      Statement(c, SetStatus(t, s, r, k, {Issuing}, DeliveryPending),
        if Holding(t, s, r, k, {Issuing}) then q.At(CreateDelivery) else Catch(q, false), a)
    case CreateDelivery =>
      Statement(c, t, q.At(Finished(if q.kind.Resumed? && a.Returns? && a.flag then Failed else Issued(k))), a)
    case Activate =>
      Statement(c, SetStatus(t, s, r, k, {Issuing, DeliveryPending}, Active),
        if Holding(t, s, r, k, {Issuing, DeliveryPending}) then q.At(RecordIssueSuccess) else Catch(q, false), a)
    case RecordIssueSuccess =>
      Statement(c, t, q.At(Finished(Issued(k))), a)
    case CleanUpKey => (
      match a
      case CleanedUp => c.(provider := c.provider.(live := c.provider.live - {k}), request := q.At(ReleaseAfterCleanup))
      case CleanupFailed(removed) =>
        c.(provider := if removed then c.provider.(live := c.provider.live - {k}) else c.provider,
           request := q.At(MarkCleanup))
      case Handled => if q.kind.Bound? then c.(request := q.At(ReleaseAfterCleanup)) else c
      case _ => c)
    case ReleaseAfterCleanup =>
      FinalStatement(c, if q.keyAttached then ReleaseCleaned(t, s, r, k) else ReleaseStarted(t, s, r), Failed, a)
    case MarkCleanup =>
      FinalStatement(c,
        if q.keyAttached then SetStatus(t, s, r, k, {Issuing, DeliveryPending, Active}, CleanupRequired)
        else MarkUnattachedCleanup(t, s, r, k), Failed, a)
    case _ => c
  }

  /** One step of a request. */
  function RequestStep(c: Scene, a: Answer): Scene {
    match c.request.pc
    case CallCreate => CreateStep(c, a)
    case AwaitCreate => CreateStep(c, a)
    case ReleaseWithoutKey =>
      var q := c.request;
      FinalStatement(c,
        if q.creationStarted then ReleaseStarted(c.rows, q.subject, q.issueRef)
        else ReleaseUnstarted(c.rows, q.subject, q.issueRef), Failed, a)
    case Finished(_) => c
    case _ => if c.request.childKey.Some? then KeyStep(c, a) else ReserveStep(c, a)
  }

  // ---------------------------------------------------------------- the whole system

  /** The delivery sweep, once it has picked a credential to clean up. */
  datatype Sweep = SweepClean(key: KeyHash) | SweepRemove(key: KeyHash) | SweepFlag(key: KeyHash)

  datatype World = World(
    rows: Table, provider: Provider, requests: map<RequestId, Request>, sweeps: map<RequestId, Sweep>, usedRefs: set<IssueRef>)

  datatype Action =
    | Begin(id: RequestId, subject: Subject, issueRef: IssueRef, now: Time, ack: bool, kind: Kind)
    | Advance(id: RequestId, answer: Answer)
    | Crash(id: RequestId)
    | TakeEffect(tag: Tag, key: KeyHash)   // a lost create call creates its key after all
    | Evaporate(tag: Tag)                  // a lost create call is never carried out
    | Acknowledge(subject: Subject)        // the delivery ACK activates the row
    | RemoveKey(key: KeyHash)              // an operation's reconcile or sweep removes a key
    | BeginSweep(id: RequestId, key: KeyHash)
    | AdvanceSweep(id: RequestId, answer: Answer)

  function SweepStep(w: World, id: RequestId, a: Answer): World
    requires id in w.sweeps
  {
    match w.sweeps[id]
    case SweepClean(k) => (
      match a
      case CleanedUp =>
        w.(provider := w.provider.(live := w.provider.live - {k}), sweeps := w.sweeps[id := SweepRemove(k)])
      case CleanupFailed(removed) =>
        w.(provider := if removed then w.provider.(live := w.provider.live - {k}) else w.provider,
           sweeps := w.sweeps[id := SweepFlag(k)])
      case _ => w)
    case SweepRemove(k) => w.(rows := SweepDelete(w.rows, k), sweeps := w.sweeps - {id})
    case SweepFlag(k) => w.(rows := SweepMark(w.rows, k), sweeps := w.sweeps - {id})
  }

  /** One step of the system; an action that is not enabled changes nothing. */
  function Next(w: World, action: Action): World {
    match action
    case Begin(id, s, r, now, ack, kind) =>
      if id in w.requests || r in w.usedRefs then w
      else
        w.(requests := w.requests[id := Request(s, r, now, ack || kind.Resumed?, kind,
                                                if kind.Resumed? then ReadStale else ReadRow, false, false, None, false)],
           usedRefs := w.usedRefs + {r})
    case Advance(id, a) =>
      if id !in w.requests then w
      else
        var c := RequestStep(Scene(w.rows, w.provider, w.requests[id]), a);
        w.(rows := c.rows, provider := c.provider, requests := w.requests[id := c.request])
    case Crash(id) => w.(requests := w.requests - {id}, sweeps := w.sweeps - {id})
    case TakeEffect(tag, k) =>
      if tag in w.provider.inFlight && k !in w.provider.origin then w.(provider := Creates(w.provider, tag, k)) else w
    case Evaporate(tag) => w.(provider := w.provider.(inFlight := w.provider.inFlight - {tag}))
    case Acknowledge(s) =>
      if s in w.rows && w.rows[s].status == DeliveryPending then w.(rows := w.rows[s := w.rows[s].(status := Active)]) else w
    case RemoveKey(k) => w.(provider := w.provider.(live := w.provider.live - {k}))
    case BeginSweep(id, k) =>
      if id in w.sweeps || k !in w.provider.origin then w else w.(sweeps := w.sweeps[id := SweepClean(k)])
    case AdvanceSweep(id, a) =>
      if id !in w.sweeps then w else SweepStep(w, id, a)
  }

  const EmptyWorld := World(map[], Provider({}, map[], {}), map[], map[], {})

  function Run(w: World, actions: seq<Action>): World
    decreases |actions|
  {
    if actions == [] then w else Next(Run(w, actions[..|actions| - 1]), actions[|actions| - 1])
  }

  // ---------------------------------------------------------------- guarded runs

  /** The call has no live key and cannot make one any more. */
  ghost predicate Settled(p: Provider, tag: Tag) {
    tag !in p.inFlight && forall k :: k in p.live && k in p.origin ==> p.origin[k] != tag
  }

  /** A failure path frees the row of a create call that was started. */
  predicate FreesStarted(c: Scene, a: Answer) {
    var q := c.request;
    && (a.Returns? || (a.Throws? && a.applied))
    && match q.pc
       case ReleaseWithoutKey => q.creationStarted && StartedUnattached(c.rows, q.subject, q.issueRef)
       case ReleaseAfterCleanup =>
         && q.childKey.Some?
         && if q.keyAttached then Holding(c.rows, q.subject, q.issueRef, q.childKey.value, {Issuing, DeliveryPending, Active})
            else StartedUnattached(c.rows, q.subject, q.issueRef)
       case _ => false
  }

  /** A failure path frees a started row only once its create call has no live key and can make none. */
  ghost predicate Guarded(w: World, action: Action) {
    action.Advance? && action.id in w.requests
    && FreesStarted(Scene(w.rows, w.provider, w.requests[action.id]), action.answer) ==>
      Settled(w.provider, w.requests[action.id].CallTag())
  }

  ghost predicate GuardedFrom(w: World, actions: seq<Action>) {
    forall n | 0 <= n < |actions| :: Guarded(Run(w, actions[..n]), actions[n])
  }

  lemma RunStep(w: World, actions: seq<Action>, n: nat)
    requires n < |actions|
    ensures Run(w, actions[..n + 1]) == Next(Run(w, actions[..n]), actions[n])
  {
    assert actions[..n + 1][..n] == actions[..n];
  }

  // ---------------------------------------------------------------- the invariant

  ghost predicate NeverCalled(p: Provider, tag: Tag) {
    tag !in p.inFlight && forall k :: k in p.origin ==> p.origin[k] != tag
  }

  /** The subject's row records that this very call was started, so no other request gets past it. */
  predicate Blocks(t: Table, tag: Tag) {
    tag.subject in t && t[tag.subject].issueRef == tag.issueRef && t[tag.subject].startedAt.Some?
  }

  ghost predicate ProviderOk(p: Provider) {
    && p.live <= p.origin.Keys
    && (forall k1, k2 :: k1 in p.origin && k2 in p.origin && p.origin[k1] == p.origin[k2] ==> k1 == k2)
    && (forall k :: k in p.origin ==> p.origin[k] !in p.inFlight)
  }

  ghost predicate Shielded(t: Table, p: Provider) {
    && (forall tag :: tag in p.inFlight ==> Blocks(t, tag))
    && (forall k :: k in p.live && k in p.origin ==> Blocks(t, p.origin[k]))
  }

  predicate RowOk(p: Provider, s: Subject, row: Row) {
    row.credential.Some? ==>
      row.startedAt.Some? && row.credential.value in p.origin && p.origin[row.credential.value] == Tag(s, row.issueRef)
  }

  ghost predicate RowsOk(t: Table, p: Provider) {
    forall s :: s in t ==> RowOk(p, s, t[s])
  }

  /** The request has not called create: it is still reserving. */
  predicate BeforeCall(pc: Pc) {
    pc.ReadStale? || pc.CleanStale? || pc.TakeBackStale? || pc.ReadRow? || pc.Insert? || pc.Reread? || pc.MarkStaleCleanup? || pc.ReclaimStale? || pc.CheckDailyCap?
    || pc.ReleaseAtCap? || pc.MarkCreationStarted?
  }

  predicate OwnsKey(pc: Pc) {
    pc.AttachKey? || pc.AssignGuardrail? || pc.MarkDeliveryPending? || pc.CreateDelivery? || pc.Activate?
    || pc.RecordIssueSuccess? || pc.CleanUpKey? || pc.ReleaseAfterCleanup? || pc.MarkCleanup?
  }

  ghost predicate RequestOk(t: Table, p: Provider, q: Request) {
    && (BeforeCall(q.pc) ==> NeverCalled(p, q.CallTag()) && q.childKey.None? && !q.creationStarted)
    && (q.pc.ReleaseWithoutKey? ==> q.childKey.None?)
    && (q.pc.ReleaseWithoutKey? && !(q.kind.Bound? && q.creationStarted) ==> NeverCalled(p, q.CallTag()))
    && (q.pc.CallCreate? ==> NeverCalled(p, q.CallTag()) && StartedUnattached(t, q.subject, q.issueRef))
    && (q.pc.CallCreate? || q.pc.AwaitCreate? ==> q.creationStarted && q.childKey.None?)
    && (OwnsKey(q.pc) ==> q.childKey.Some?)
    && (q.childKey.Some? ==> q.childKey.value in p.origin && p.origin[q.childKey.value] == q.CallTag())
    && (q.pc.ReleaseAfterCleanup? && !q.kind.Bound? ==> q.childKey.value !in p.live)
    && (q.pc.CleanStale? || q.pc.TakeBackStale? ==> q.pc.stale in p.origin)
    && (q.pc.TakeBackStale? ==> q.pc.stale !in p.live)
  }

  predicate SweepOk(p: Provider, w: Sweep) {
    w.key in p.origin && (w.SweepRemove? ==> w.key !in p.live)
  }

  ghost predicate RefsOk(w: World) {
    && (forall k :: k in w.provider.origin ==> w.provider.origin[k].issueRef in w.usedRefs)
    && (forall tag :: tag in w.provider.inFlight ==> tag.issueRef in w.usedRefs)
    && (forall i :: i in w.requests ==> w.requests[i].issueRef in w.usedRefs)
    && (forall i, j :: i in w.requests && j in w.requests && i != j ==> w.requests[i].issueRef != w.requests[j].issueRef)
  }

  ghost predicate Inv(w: World) {
    && ProviderOk(w.provider)
    && Shielded(w.rows, w.provider)
    && RowsOk(w.rows, w.provider)
    && RefsOk(w)
    && (forall i :: i in w.requests ==> RequestOk(w.rows, w.provider, w.requests[i]))
    && (forall i :: i in w.sweeps ==> SweepOk(w.provider, w.sweeps[i]))
  }

  // ---------------------------------------------------------------- preservation

  ghost predicate TableOk(t: Table, p: Provider) {
    Shielded(t, p) && RowsOk(t, p)
  }

  /** No key of the subject is live or still being created. */
  ghost predicate Unexposed(p: Provider, s: Subject) {
    && (forall tag :: tag in p.inFlight ==> tag.subject != s)
    && (forall k :: k in p.live && k in p.origin ==> p.origin[k].subject != s)
  }

  /** A subject whose started call is known to have no live key and no pending effect is not exposed. */
  lemma SettledIsUnexposed(t: Table, p: Provider, tag: Tag)
    requires Shielded(t, p) && tag.subject in t && t[tag.subject].issueRef == tag.issueRef
    requires tag !in p.inFlight && forall k :: k in p.live && k in p.origin ==> p.origin[k] != tag
    ensures Unexposed(p, tag.subject)
  {
  }

  /** The other requests about to create keep their started rows. */
  ghost predicate LeavesOthers(t: Table, t': Table, r: IssueRef) {
    forall s, x :: StartedUnattached(t, s, x) && x != r ==> StartedUnattached(t', s, x)
  }

  lemma ReserveRows(t: Table, p: Provider, s: Subject, r: IssueRef, now: Time)
    requires TableOk(t, p)
    ensures var t' := InsertReservation(t, s, r, now); TableOk(t', p) && LeavesOthers(t, t', r)
    ensures var t' := MarkStarted(t, s, r, now); TableOk(t', p) && LeavesOthers(t, t', r)
    ensures var t' := ReleaseUnstarted(t, s, r); TableOk(t', p) && LeavesOthers(t, t', r)
    ensures forall seen :: var t' := Reclaim(t, s, seen, r, now); TableOk(t', p) && LeavesOthers(t, t', r)
  {
  }

  lemma StatusRows(t: Table, p: Provider, s: Subject, r: IssueRef, k: KeyHash, from: set<Status>, to: Status, x: IssueRef)
    requires TableOk(t, p)
    ensures var t' := SetStatus(t, s, r, k, from, to); TableOk(t', p) && LeavesOthers(t, t', x)
  {
  }

  lemma KeyRows(t: Table, p: Provider, tag: Tag, k: KeyHash)
    requires TableOk(t, p) && k in p.origin && p.origin[k] == tag
    ensures var t' := Attach(t, tag.subject, tag.issueRef, k); TableOk(t', p) && LeavesOthers(t, t', tag.issueRef)
    ensures var t' := MarkUnattachedCleanup(t, tag.subject, tag.issueRef, k); TableOk(t', p) && LeavesOthers(t, t', tag.issueRef)
  {
  }

  lemma ReleaseRows(t: Table, p: Provider, tag: Tag, k: KeyHash)
    requires TableOk(t, p) && tag !in p.inFlight && forall x :: x in p.live && x in p.origin ==> p.origin[x] != tag
    ensures var t' := ReleaseStarted(t, tag.subject, tag.issueRef); TableOk(t', p) && LeavesOthers(t, t', tag.issueRef)
    ensures var t' := ReleaseCleaned(t, tag.subject, tag.issueRef, k); TableOk(t', p) && LeavesOthers(t, t', tag.issueRef)
  {
  }

  ghost predicate SceneOk(c: Scene) {
    ProviderOk(c.provider) && TableOk(c.rows, c.provider) && RequestOk(c.rows, c.provider, c.request)
  }

  /** The same call, further on. */
  predicate SameCall(q: Request, next: Request) {
    next.subject == q.subject && next.issueRef == q.issueRef && next.kind == q.kind
  }

  /** What a provider step on behalf of `tag` leaves alone. */
  ghost predicate ProviderStep(p: Provider, p': Provider, tag: Tag) {
    && (forall k :: k in p.origin ==> k in p'.origin && p'.origin[k] == p.origin[k] && (k in p'.live ==> k in p.live))
    && (forall k :: k in p'.origin && k !in p.origin ==> p'.origin[k] == tag)
    && p'.inFlight <= p.inFlight + {tag}
  }

  /** A step that keeps its own scene in order and leaves every other call's ground alone. */
  ghost predicate Kept(c: Scene, c': Scene) {
    && SceneOk(c') && SameCall(c.request, c'.request)
    && ProviderStep(c.provider, c'.provider, c.request.CallTag())
    && LeavesOthers(c.rows, c'.rows, c.request.issueRef)
  }

  /** A continuation of the same call with the same key. */
  predicate Continues(q: Request, next: Request) {
    SameCall(q, next) && next.childKey == q.childKey
  }

  /** Where a request may go from a statement before its create call. */
  predicate EarlyNext(rows: Table, next: Request) {
    || next.pc.Finished? || next.pc.ReleaseWithoutKey?
    || (BeforeCall(next.pc) && !next.creationStarted && !next.pc.CleanStale? && !next.pc.TakeBackStale?)
    || (next.pc.CallCreate? && next.creationStarted && StartedUnattached(rows, next.subject, next.issueRef))
  }

  lemma EarlyMoveOk(c: Scene, rows: Table, next: Request, c': Scene)
    requires SceneOk(c) && BeforeCall(c.request.pc) && Continues(c.request, next)
    requires TableOk(rows, c.provider) && LeavesOthers(c.rows, rows, c.request.issueRef)
    requires EarlyNext(rows, next)
    requires c' == c.(rows := rows, request := next)
    ensures Kept(c, c')
  {
  }

  /** A statement before the create call is in order if its table is and it continues before the call. */
  lemma EarlyStatementOk(c: Scene, rows: Table, next: Request, a: Answer, c': Scene)
    requires SceneOk(c) && BeforeCall(c.request.pc) && Continues(c.request, next)
    requires TableOk(rows, c.provider) && LeavesOthers(c.rows, rows, c.request.issueRef)
    requires EarlyNext(rows, next)
    requires c' == Statement(c, rows, next, a)
    ensures Kept(c, c')
  {
    match a
    case Returns(_) => EarlyMoveOk(c, rows, next, c');
    case Throws(applied) => EarlyMoveOk(c, if applied then rows else c.rows, Catch(c.request, false), c');
    case _ =>
  }

  /** A failing step that holds a key goes on to clean it up, or ends. */
  lemma CatchHoldsKey(q: Request)
    requires q.childKey.Some?
    ensures Catch(q, false) == q.At(Catch(q, false).pc)
    ensures Catch(q, false).pc.Finished? || Catch(q, false).pc.CleanUpKey?
  {
  }

  lemma KeyMoveOk(c: Scene, rows: Table, next: Request, c': Scene)
    requires SceneOk(c) && c.request.childKey.Some? && Continues(c.request, next)
    requires TableOk(rows, c.provider) && LeavesOthers(c.rows, rows, c.request.issueRef)
    requires next.pc.Finished? || (OwnsKey(next.pc) && !next.pc.ReleaseAfterCleanup?)
    requires c' == c.(rows := rows, request := next)
    ensures Kept(c, c')
  {
  }

  /** A statement that holds a key is in order if its table is and it goes on holding the key. */
  lemma KeyStatementOk(c: Scene, rows: Table, next: Request, a: Answer, c': Scene)
    requires SceneOk(c) && OwnsKey(c.request.pc) && Continues(c.request, next)
    requires TableOk(rows, c.provider) && LeavesOthers(c.rows, rows, c.request.issueRef)
    requires next.pc.Finished? || (OwnsKey(next.pc) && !next.pc.ReleaseAfterCleanup?)
    requires c' == Statement(c, rows, next, a)
    ensures Kept(c, c')
  {
    CatchHoldsKey(c.request);
    match a
    case Returns(_) => KeyMoveOk(c, rows, next, c');
    case Throws(applied) => KeyMoveOk(c, if applied then rows else c.rows, Catch(c.request, false), c');
    case _ =>
  }

  lemma FinalStatementOk(c: Scene, rows: Table, reply: Reply, a: Answer, c': Scene)
    requires SceneOk(c) && TableOk(rows, c.provider) && LeavesOthers(c.rows, rows, c.request.issueRef)
    requires c' == FinalStatement(c, rows, reply, a)
    ensures Kept(c, c')
  {
  }

  lemma ReadRowOk(c: Scene, a: Answer, c': Scene)
    requires SceneOk(c) && c.request.pc.ReadRow? && c' == ReserveStep(c, a)
    ensures Kept(c, c')
  {
    var q := c.request;
    var next := q.At(if LifetimeBlocking(c.rows, q.subject) || (a.Returns? && a.flag) then Finished(Refused) else Insert);
    EarlyStatementOk(c, c.rows, next, a, c');
  }

  /** A resume that has seen an old delivery goes on to its key, and nothing else has changed. */
  lemma StaleMoveOk(c: Scene, p': Provider, next: Pc, c': Scene)
    requires SceneOk(c) && (c.request.pc.ReadStale? || c.request.pc.CleanStale?)
    requires p' == c.provider.(live := p'.live) && p'.live <= c.provider.live
    requires next.Finished? || ((next.CleanStale? || next.TakeBackStale?) && next.stale in p'.origin)
    requires next.TakeBackStale? ==> next.stale !in p'.live
    requires c' == c.(provider := p', request := c.request.At(next))
    ensures Kept(c, c')
  {
    ProviderShrinks(c.rows, c.provider, p');
    ProviderStepKept(c, p', c.request.At(next));
  }

  lemma ReadStaleOk(c: Scene, a: Answer, c': Scene)
    requires SceneOk(c) && c.request.pc.ReadStale? && c' == ReserveStep(c, a)
    ensures Kept(c, c')
  {
    var next := AfterStaleRead(c.rows, c.request, a);
    if next.pc.CleanStale? && a.Returns? {
      assert RowOk(c.provider, c.request.subject, c.rows[c.request.subject]);
      StaleMoveOk(c, c.provider, next.pc, c');
    } else {
      EarlyStatementOk(c, c.rows, c.request.At(ReadRow), a, c');
    }
  }

  lemma CleanStaleOk(c: Scene, a: Answer, c': Scene)
    requires SceneOk(c) && c.request.pc.CleanStale? && c' == ReserveStep(c, a)
    ensures Kept(c, c')
  {
    var p, k := c.provider, c.request.pc.stale;
    if a.CleanedUp? || a.CleanupFailed? {
      StaleMoveOk(c, if a.CleanedUp? || a.removed then p.(live := p.live - {k}) else p, c'.request.pc, c');
    } else {
      StaleMoveOk(c, p, c.request.pc, c');
    }
  }

  /** A row whose key is gone shields nothing, so a resume may make it an untouched reservation again. */
  lemma ResetRows(t: Table, p: Provider, s: Subject, k: KeyHash, x: IssueRef)
    requires ProviderOk(p) && TableOk(t, p) && k in p.origin && k !in p.live
    ensures TableOk(ResetStale(t, s, k), p) && LeavesOthers(t, ResetStale(t, s, k), x)
  {
    if HoldsDelivery(t, s, k) {
      assert RowOk(p, s, t[s]);
      assert p.origin[k] == Tag(s, t[s].issueRef);
    }
  }

  lemma TakeBackStaleOk(c: Scene, a: Answer, c': Scene)
    requires SceneOk(c) && c.request.pc.TakeBackStale? && c' == ReserveStep(c, a)
    ensures Kept(c, c')
  {
    var q, k := c.request, c.request.pc.stale;
    ResetRows(c.rows, c.provider, q.subject, k, q.issueRef);
    EarlyStatementOk(c, ResetStale(c.rows, q.subject, k),
      q.At(if HoldsDelivery(c.rows, q.subject, k) then ReadRow else Finished(Refused)), a, c');
  }

  /** Whatever the conflicting row says, the request goes on before its call or is refused. */
  lemma AfterConflictIsEarly(t: Table, q: Request)
    ensures var next := AfterConflict(t, q);
            next == q.At(next.pc) && (next.pc.Finished? || next.pc.MarkStaleCleanup? || next.pc.ReclaimStale?)
  {
  }

  lemma RereadOk(c: Scene, a: Answer, c': Scene)
    requires SceneOk(c) && c.request.pc.Reread? && c' == ReserveStep(c, a)
    ensures Kept(c, c')
  {
    var next := AfterConflict(c.rows, c.request);
    AfterConflictIsEarly(c.rows, c.request);
    EarlyStatementOk(c, c.rows, next, a, c');
  }

  lemma InsertOk(c: Scene, a: Answer, c': Scene)
    requires SceneOk(c) && c.request.pc.Insert?
    requires c' == ReserveStep(c, a)
    ensures Kept(c, c')
  {
    var q, s, r, t := c.request, c.request.subject, c.request.issueRef, c.rows;
    ReserveRows(t, c.provider, s, r, q.now);
    EarlyStatementOk(c, InsertReservation(t, s, r, q.now),
      if s in t then q.At(Reread) else q.(pc := CheckDailyCap, reservationCreated := true), a, c');
  }

  lemma StalePathOk(c: Scene, a: Answer, c': Scene)
    requires SceneOk(c) && (c.request.pc.MarkStaleCleanup? || c.request.pc.ReclaimStale?)
    requires c' == ReserveStep(c, a)
    ensures Kept(c, c')
  {
    var q, s, r, t := c.request, c.request.subject, c.request.issueRef, c.rows;
    match q.pc
    case MarkStaleCleanup(seen, k) =>
      StatusRows(t, c.provider, s, seen, k, {Issuing}, CleanupRequired, r);
      FinalStatementOk(c, SetStatus(t, s, seen, k, {Issuing}, CleanupRequired), Refused, a, c');
    case ReclaimStale(seen) =>
      ReserveRows(t, c.provider, s, r, q.now);
      EarlyStatementOk(c, Reclaim(t, s, seen, r, q.now),
        if Untouched(t, s, seen) then q.(pc := CheckDailyCap, reservationCreated := true) else q.At(Finished(Refused)), a, c');
  }

  lemma StartPathOk(c: Scene, a: Answer, c': Scene)
    requires SceneOk(c)
    requires c.request.pc.CheckDailyCap? || c.request.pc.ReleaseAtCap? || c.request.pc.MarkCreationStarted?
    requires c' == ReserveStep(c, a)
    ensures Kept(c, c')
  {
    var q, s, r, t := c.request, c.request.subject, c.request.issueRef, c.rows;
    ReserveRows(t, c.provider, s, r, q.now);
    match q.pc
    case CheckDailyCap =>
      EarlyStatementOk(c, t, q.At(if a.Returns? && a.flag then ReleaseAtCap else MarkCreationStarted), a, c');
    case ReleaseAtCap =>
      EarlyStatementOk(c, ReleaseUnstarted(t, s, r), q.(pc := Finished(Refused), reservationCreated := false), a, c');
    case MarkCreationStarted =>
      EarlyStatementOk(c, MarkStarted(t, s, r, q.now),
        if Untouched(t, s, r) then q.(pc := CallCreate, creationStarted := true) else Catch(q, false), a, c');
  }

  lemma ReleaseWithoutKeyOk(c: Scene, a: Answer, c': Scene)
    requires SceneOk(c) && c.request.pc.ReleaseWithoutKey?
    requires FreesStarted(c, a) ==> Settled(c.provider, c.request.CallTag())
    requires c' == RequestStep(c, a)
    ensures Kept(c, c')
  {
    var q := c.request;
    if q.creationStarted {
      StartedReleaseOk(c, a, c');
    } else {
      ReserveRows(c.rows, c.provider, q.subject, q.issueRef, q.now);
      FinalStatementOk(c, ReleaseUnstarted(c.rows, q.subject, q.issueRef), Failed, a, c');
    }
  }

  lemma StartedReleaseOk(c: Scene, a: Answer, c': Scene)
    requires SceneOk(c) && c.request.pc.ReleaseWithoutKey? && c.request.creationStarted
    requires FreesStarted(c, a) ==> Settled(c.provider, c.request.CallTag())
    requires c' == RequestStep(c, a)
    ensures Kept(c, c')
  {
    var q := c.request;
    var rows := ReleaseStarted(c.rows, q.subject, q.issueRef);
    if Settled(c.provider, q.CallTag()) {
      ReleaseRows(c.rows, c.provider, q.CallTag(), "");
      FinalStatementOk(c, rows, Failed, a, c');
    } else {
      assert rows == c.rows || !(a.Returns? || (a.Throws? && a.applied));
      FinalStatementOk(c, c.rows, Failed, a, c');
    }
  }

  lemma AttachStepOk(c: Scene, k: KeyHash, next: Request, a: Answer, c': Scene)
    requires SceneOk(c) && c.request.pc.AttachKey? && c.request.childKey == Some(k)
    requires next == c.request.(pc := AssignGuardrail, keyAttached := true) || next == Catch(c.request, false)
    requires c' == Statement(c, Attach(c.rows, c.request.subject, c.request.issueRef, k), next, a)
    ensures Kept(c, c')
  {
    var q := c.request;
    CatchHoldsKey(q);
    KeyRows(c.rows, c.provider, q.CallTag(), k);
    KeyStatementOk(c, Attach(c.rows, q.subject, q.issueRef, k), next, a, c');
  }

  lemma AttachKeyOk(c: Scene, a: Answer, c': Scene)
    requires SceneOk(c) && c.request.pc.AttachKey?
    requires c' == KeyStep(c, a)
    ensures Kept(c, c')
  {
    var q, k := c.request, c.request.childKey.value;
    var next := if StartedUnattached(c.rows, q.subject, q.issueRef) then q.(pc := AssignGuardrail, keyAttached := true) else Catch(q, false);
    AttachStepOk(c, k, next, a, c');
  }

  /** The steps that only read, or talk to the guardrail, the delivery table or the event table. */
  lemma PassThroughOk(c: Scene, a: Answer, c': Scene)
    requires SceneOk(c)
    requires c.request.pc.AssignGuardrail? || c.request.pc.CreateDelivery? || c.request.pc.RecordIssueSuccess?
    requires c' == KeyStep(c, a)
    ensures Kept(c, c')
  {
    var q, k := c.request, c.request.childKey.value;
    KeyStatementOk(c, c.rows,
      q.At(if q.pc.AssignGuardrail? then if q.ack then MarkDeliveryPending else Activate
           else Finished(if q.pc.CreateDelivery? && q.kind.Resumed? && a.Returns? && a.flag then Failed else Issued(k))), a, c');
  }

  /** A status update by a key's owner goes on to `then`, or fails. */
  lemma StatusStepOk(c: Scene, k: KeyHash, from: set<Status>, to: Status, onward: Pc, next: Request, a: Answer, c': Scene)
    requires SceneOk(c) && OwnsKey(c.request.pc) && c.request.childKey == Some(k)
    requires onward.CreateDelivery? || onward.RecordIssueSuccess?
    requires next == c.request.At(onward) || next == Catch(c.request, false)
    requires c' == Statement(c, SetStatus(c.rows, c.request.subject, c.request.issueRef, k, from, to), next, a)
    ensures Kept(c, c')
  {
    var q := c.request;
    CatchHoldsKey(q);
    StatusRows(c.rows, c.provider, q.subject, q.issueRef, k, from, to, q.issueRef);
    KeyStatementOk(c, SetStatus(c.rows, q.subject, q.issueRef, k, from, to), next, a, c');
  }

  lemma MarkDeliveryPendingOk(c: Scene, a: Answer, c': Scene)
    requires SceneOk(c) && c.request.pc.MarkDeliveryPending?
    requires c' == KeyStep(c, a)
    ensures Kept(c, c')
  {
    var q, k := c.request, c.request.childKey.value;
    var next := if Holding(c.rows, q.subject, q.issueRef, k, {Issuing}) then q.At(CreateDelivery) else Catch(q, false);
    StatusStepOk(c, k, {Issuing}, DeliveryPending, CreateDelivery, next, a, c');
  }

  lemma ActivateOk(c: Scene, a: Answer, c': Scene)
    requires SceneOk(c) && c.request.pc.Activate?
    requires c' == KeyStep(c, a)
    ensures Kept(c, c')
  {
    var q, k := c.request, c.request.childKey.value;
    var next := if Holding(c.rows, q.subject, q.issueRef, k, {Issuing, DeliveryPending}) then q.At(RecordIssueSuccess) else Catch(q, false);
    StatusStepOk(c, k, {Issuing, DeliveryPending}, Active, RecordIssueSuccess, next, a, c');
  }

  /** The statements that give the row up or flag it once the key was cleaned up or not. */
  lemma CleanupPathOk(c: Scene, a: Answer, c': Scene)
    requires SceneOk(c) && (c.request.pc.ReleaseAfterCleanup? || c.request.pc.MarkCleanup?)
    requires FreesStarted(c, a) ==> Settled(c.provider, c.request.CallTag())
    requires c' == KeyStep(c, a)
    ensures Kept(c, c')
  {
    var q, t, p, k := c.request, c.rows, c.provider, c.request.childKey.value;
    if q.pc.ReleaseAfterCleanup? {
      CleanedReleaseOk(c, a, c');
    } else {
      KeyRows(t, p, q.CallTag(), k);
      StatusRows(t, p, q.subject, q.issueRef, k, {Issuing, DeliveryPending, Active}, CleanupRequired, q.issueRef);
      FinalStatementOk(c,
        if q.keyAttached then SetStatus(t, q.subject, q.issueRef, k, {Issuing, DeliveryPending, Active}, CleanupRequired)
        else MarkUnattachedCleanup(t, q.subject, q.issueRef, k), Failed, a, c');
    }
  }

  lemma CleanedReleaseOk(c: Scene, a: Answer, c': Scene)
    requires SceneOk(c) && c.request.pc.ReleaseAfterCleanup?
    requires FreesStarted(c, a) ==> Settled(c.provider, c.request.CallTag())
    requires c' == KeyStep(c, a)
    ensures Kept(c, c')
  {
    var q, t, k := c.request, c.rows, c.request.childKey.value;
    var rows := if q.keyAttached then ReleaseCleaned(t, q.subject, q.issueRef, k) else ReleaseStarted(t, q.subject, q.issueRef);
    if Settled(c.provider, q.CallTag()) {
      ReleaseRows(t, c.provider, q.CallTag(), k);
      FinalStatementOk(c, rows, Failed, a, c');
    } else {
      assert rows == t || !(a.Returns? || (a.Throws? && a.applied));
      FinalStatementOk(c, t, Failed, a, c');
    }
  }

  /** Losing keys or pending effects never hurts. */
  lemma ProviderShrinks(t: Table, p: Provider, p': Provider)
    requires ProviderOk(p) && TableOk(t, p) && p'.origin == p.origin && p'.live <= p.live && p'.inFlight <= p.inFlight
    ensures ProviderOk(p') && TableOk(t, p') && forall tag :: ProviderStep(p, p', tag)
  {
  }

  /** A pending call takes effect. */
  lemma ProviderCreates(t: Table, p: Provider, tag: Tag, k: KeyHash)
    requires ProviderOk(p) && TableOk(t, p) && tag in p.inFlight && k !in p.origin
    ensures var p' := Creates(p, tag, k); ProviderOk(p') && TableOk(t, p') && ProviderStep(p, p', tag)
  {
  }

  /** A provider step of the acting call keeps the scene if it keeps the acting request. */
  lemma ProviderStepKept(c: Scene, p': Provider, next: Request)
    requires SceneOk(c) && ProviderOk(p') && TableOk(c.rows, p') && ProviderStep(c.provider, p', c.request.CallTag())
    requires SameCall(c.request, next) && RequestOk(c.rows, p', next)
    ensures Kept(c, c.(provider := p', request := next))
  {
  }

  lemma CallCreateOk(c: Scene, a: Answer, c': Scene)
    requires SceneOk(c) && c.request.pc.CallCreate?
    requires c' == CreateStep(c, a)
    ensures Kept(c, c')
  {
  }

  lemma KeyReturnedOk(c: Scene, k: KeyHash, c': Scene)
    requires SceneOk(c) && c.request.pc.AwaitCreate? && c' == CreateStep(c, Created(k))
    ensures Kept(c, c')
  {
    var p, q := c.provider, c.request;
    var known := q.(childKey := Some(k), pc := AttachKey);
    if q.CallTag() in p.inFlight && k !in p.origin {
      ProviderCreates(c.rows, p, q.CallTag(), k);
      KeyKnownOk(c, Creates(p, q.CallTag(), k), known, c');
    } else if k in p.origin && p.origin[k] == q.CallTag() {
      ProviderShrinks(c.rows, p, p);
      KeyKnownOk(c, p, known, c');
    }
  }

  lemma KeyKnownOk(c: Scene, p': Provider, next: Request, c': Scene)
    requires SceneOk(c) && c.request.pc.AwaitCreate?
    requires ProviderOk(p') && TableOk(c.rows, p') && ProviderStep(c.provider, p', c.request.CallTag())
    requires next.pc.AttachKey? && next == c.request.(childKey := next.childKey, pc := AttachKey) && next.childKey.Some?
    requires next.childKey.value in p'.origin && p'.origin[next.childKey.value] == c.request.CallTag()
    requires c' == c.(provider := p', request := next)
    ensures Kept(c, c')
  {
    ProviderStepKept(c, p', next);
  }

  lemma RejectedRequestOk(t: Table, p: Provider, q: Request, p': Provider)
    requires ProviderOk(p) && RequestOk(t, p, q) && q.pc.AwaitCreate? && q.CallTag() in p.inFlight
    requires p' == p.(inFlight := p.inFlight - {q.CallTag()})
    ensures RequestOk(t, p', Catch(q, true)) && SameCall(q, Catch(q, true))
  {
  }

  lemma RejectedOk(c: Scene, c': Scene)
    requires SceneOk(c) && c.request.pc.AwaitCreate? && c' == CreateStep(c, Rejected)
    ensures Kept(c, c')
  {
    var p, q := c.provider, c.request;
    var p' := if q.CallTag() in p.inFlight then p.(inFlight := p.inFlight - {q.CallTag()}) else p;
    ProviderShrinks(c.rows, p, p');
    if q.CallTag() in p.inFlight {
      RejectedRequestOk(c.rows, p, q, p');
      ProviderStepKept(c, p', Catch(q, true));
    }
  }

  lemma LostOk(c: Scene, c': Scene)
    requires SceneOk(c) && c.request.pc.AwaitCreate? && c' == c.(request := Catch(c.request, false))
    ensures Kept(c, c')
  {
    ProviderShrinks(c.rows, c.provider, c.provider);
    ProviderStepKept(c, c.provider, Catch(c.request, false));
  }

  lemma AwaitCreateOk(c: Scene, a: Answer, c': Scene)
    requires SceneOk(c) && c.request.pc.AwaitCreate?
    requires c' == CreateStep(c, a)
    ensures Kept(c, c')
  {
    match a
    case Created(k) => KeyReturnedOk(c, k, c');
    case Rejected => RejectedOk(c, c');
    case Lost => LostOk(c, c');
    case _ => ProviderShrinks(c.rows, c.provider, c.provider);
  }

  lemma CleanUpStepOk(c: Scene, a: Answer, c': Scene)
    requires SceneOk(c) && c.request.pc.CleanUpKey?
    requires c' == KeyStep(c, a)
    ensures Kept(c, c')
  {
    var p, k := c.provider, c.request.childKey.value;
    if a.CleanedUp? || (a.CleanupFailed? && a.removed) {
      KeyRemovedOk(c, p.(live := p.live - {k}), if a.CleanedUp? then ReleaseAfterCleanup else MarkCleanup, c');
    } else if a.CleanupFailed? {
      KeyStaysOk(c, MarkCleanup, c');
    } else if a.Handled? && c.request.kind.Bound? {
      KeyStaysOk(c, ReleaseAfterCleanup, c');
    }
  }

  lemma KeyStaysOk(c: Scene, next: Pc, c': Scene)
    requires SceneOk(c) && c.request.pc.CleanUpKey? && c' == c.(request := c.request.At(next))
    requires next.MarkCleanup? || (next.ReleaseAfterCleanup? && c.request.kind.Bound?)
    ensures Kept(c, c')
  {
    ProviderShrinks(c.rows, c.provider, c.provider);
    ProviderStepKept(c, c.provider, c.request.At(next));
  }

  lemma KeyRemovedOk(c: Scene, p': Provider, next: Pc, c': Scene)
    requires SceneOk(c) && c.request.pc.CleanUpKey? && (next.ReleaseAfterCleanup? || next.MarkCleanup?)
    requires p' == c.provider.(live := c.provider.live - {c.request.childKey.value})
    requires c' == c.(provider := p', request := c.request.At(next))
    ensures Kept(c, c')
  {
    ProviderShrinks(c.rows, c.provider, p');
    ProviderStepKept(c, p', c.request.At(next));
  }

  lemma ReserveStepOk(c: Scene, a: Answer, c': Scene)
    requires SceneOk(c) && BeforeCall(c.request.pc)
    requires c' == RequestStep(c, a)
    ensures Kept(c, c')
  {
    match c.request.pc
    case ReadStale => ReadStaleOk(c, a, c');
    case CleanStale(_) => CleanStaleOk(c, a, c');
    case TakeBackStale(_) => TakeBackStaleOk(c, a, c');
    case ReadRow => ReadRowOk(c, a, c');
    case Insert => InsertOk(c, a, c');
    case Reread => RereadOk(c, a, c');
    case MarkStaleCleanup(_, _) => StalePathOk(c, a, c');
    case ReclaimStale(_) => StalePathOk(c, a, c');
    case _ => StartPathOk(c, a, c');
  }

  lemma KeyStepOk(c: Scene, a: Answer, c': Scene)
    requires SceneOk(c) && OwnsKey(c.request.pc)
    requires FreesStarted(c, a) ==> Settled(c.provider, c.request.CallTag())
    requires c' == RequestStep(c, a)
    ensures Kept(c, c')
  {
    match c.request.pc
    case CleanUpKey => CleanUpStepOk(c, a, c');
    case ReleaseAfterCleanup => CleanupPathOk(c, a, c');
    case MarkCleanup => CleanupPathOk(c, a, c');
    case AttachKey => AttachKeyOk(c, a, c');
    case MarkDeliveryPending => MarkDeliveryPendingOk(c, a, c');
    case Activate => ActivateOk(c, a, c');
    case _ => PassThroughOk(c, a, c');
  }

  lemma CreateStepOk(c: Scene, a: Answer, c': Scene)
    requires SceneOk(c) && (c.request.pc.CallCreate? || c.request.pc.AwaitCreate?)
    requires c' == RequestStep(c, a)
    ensures Kept(c, c')
  {
    if c.request.pc.CallCreate? { CallCreateOk(c, a, c'); } else { AwaitCreateOk(c, a, c'); }
  }

  lemma FinishedStepOk(c: Scene, a: Answer, c': Scene)
    requires SceneOk(c) && c.request.pc.Finished? && c' == RequestStep(c, a)
    ensures Kept(c, c')
  {
  }

  /** One step of a request keeps its own scene and leaves every other request's ground alone. */
  lemma RequestStepOk(c: Scene, a: Answer, c': Scene)
    requires SceneOk(c)
    requires FreesStarted(c, a) ==> Settled(c.provider, c.request.CallTag())
    requires c' == RequestStep(c, a)
    ensures Kept(c, c')
  {
    if BeforeCall(c.request.pc) { ReserveStepOk(c, a, c'); }
    else if OwnsKey(c.request.pc) { KeyStepOk(c, a, c'); }
    else if c.request.pc.ReleaseWithoutKey? { ReleaseWithoutKeyOk(c, a, c'); }
    else if c.request.pc.Finished? { FinishedStepOk(c, a, c'); }
    else { CreateStepOk(c, a, c'); }
  }

  // ---------------------------------------------------------------- whole steps and whole runs

  /** A request whose call is not the acting one is still in order after the other's step. */
  lemma OthersKeepGoing(t: Table, p: Provider, t': Table, p': Provider, tag: Tag, q: Request)
    requires ProviderOk(p) && ProviderStep(p, p', tag) && LeavesOthers(t, t', tag.issueRef)
    requires RequestOk(t, p, q) && q.issueRef != tag.issueRef
    ensures RequestOk(t', p', q)
  {
  }

  /** The effect of a request step on the world, given what the step keeps. */
  lemma SceneReplaced(w: World, id: RequestId, c': Scene, w': World)
    requires Inv(w) && id in w.requests && Kept(Scene(w.rows, w.provider, w.requests[id]), c')
    requires w' == w.(rows := c'.rows, provider := c'.provider, requests := w.requests[id := c'.request])
    ensures Inv(w')
  {
    var tag := w.requests[id].CallTag();
    SceneKeepsRefs(w, id, c', w');
    forall i | i in w'.requests ensures RequestOk(w'.rows, w'.provider, w'.requests[i]) {
      if i != id { OthersKeepGoing(w.rows, w.provider, c'.rows, c'.provider, tag, w.requests[i]); }
    }
    forall i | i in w'.sweeps ensures SweepOk(w'.provider, w'.sweeps[i]) {
      assert SweepOk(w.provider, w.sweeps[i]);
    }
  }

  lemma SceneKeepsRefs(w: World, id: RequestId, c': Scene, w': World)
    requires RefsOk(w) && id in w.requests && SameCall(w.requests[id], c'.request)
    requires ProviderStep(w.provider, c'.provider, w.requests[id].CallTag())
    requires w' == w.(rows := c'.rows, provider := c'.provider, requests := w.requests[id := c'.request])
    ensures RefsOk(w')
  {
  }

  lemma AdvanceKeepsInv(w: World, id: RequestId, a: Answer)
    requires Inv(w) && id in w.requests && Guarded(w, Advance(id, a))
    ensures Inv(Next(w, Advance(id, a)))
  {
    var c := Scene(w.rows, w.provider, w.requests[id]);
    RequestStepOk(c, a, RequestStep(c, a));
    SceneReplaced(w, id, RequestStep(c, a), Next(w, Advance(id, a)));
  }

  /** A cleaned-up key is gone, so its row shields nothing any more. */
  lemma SweepRows(t: Table, p: Provider, k: KeyHash)
    requires ProviderOk(p) && TableOk(t, p) && k in p.origin
    ensures k !in p.live ==> TableOk(SweepDelete(t, k), p)
    ensures TableOk(SweepMark(t, k), p)
    ensures forall s, x :: StartedUnattached(t, s, x) ==> StartedUnattached(SweepDelete(t, k), s, x) && StartedUnattached(SweepMark(t, k), s, x)
  {
  }

  /** A world in which only rows, keys that are gone, and sweeps differ is in order if its table is. */
  lemma ShrunkKeepsInv(w: World, w': World)
    requires Inv(w) && TableOk(w'.rows, w'.provider) && ProviderOk(w'.provider)
    requires w'.provider == w.provider.(live := w'.provider.live) && w'.provider.live <= w.provider.live
    requires w' == w.(rows := w'.rows, provider := w'.provider, sweeps := w'.sweeps)
    requires forall s, x :: StartedUnattached(w.rows, s, x) ==> StartedUnattached(w'.rows, s, x)
    requires forall i | i in w'.sweeps :: SweepOk(w'.provider, w'.sweeps[i])
    ensures Inv(w')
  {
    forall i | i in w'.requests ensures RequestOk(w'.rows, w'.provider, w'.requests[i]) {
      assert RequestOk(w.rows, w.provider, w.requests[i]);
    }
  }

  lemma SweepsStayOk(w: World, id: RequestId, w': World)
    requires forall i | i in w.sweeps :: SweepOk(w.provider, w.sweeps[i])
    requires w'.provider == w.provider.(live := w'.provider.live) && w'.provider.live <= w.provider.live
    requires forall i | i in w'.sweeps && i != id :: i in w.sweeps && w'.sweeps[i] == w.sweeps[i]
    requires id in w'.sweeps ==> SweepOk(w'.provider, w'.sweeps[id])
    ensures forall i | i in w'.sweeps :: SweepOk(w'.provider, w'.sweeps[i])
  {
    forall i | i in w'.sweeps && i != id ensures SweepOk(w'.provider, w'.sweeps[i]) {
      assert SweepOk(w.provider, w.sweeps[i]);
    }
  }

  lemma SweepCleansOk(w: World, id: RequestId, a: Answer, w': World)
    requires Inv(w) && id in w.sweeps && w.sweeps[id].SweepClean? && w' == SweepStep(w, id, a)
    ensures Inv(w')
  {
    var k := w.sweeps[id].key;
    assert SweepOk(w.provider, w.sweeps[id]);
    ProviderShrinks(w.rows, w.provider, w'.provider);
    SweepsStayOk(w, id, w');
    ShrunkKeepsInv(w, w');
  }

  lemma SweepWritesOk(w: World, id: RequestId, a: Answer, w': World)
    requires Inv(w) && id in w.sweeps && !w.sweeps[id].SweepClean? && w' == SweepStep(w, id, a)
    ensures Inv(w')
  {
    assert SweepOk(w.provider, w.sweeps[id]);
    SweepRows(w.rows, w.provider, w.sweeps[id].key);
    SweepsStayOk(w, id, w');
    ShrunkKeepsInv(w, w');
  }

  lemma SweepKeepsInv(w: World, id: RequestId, a: Answer, w': World)
    requires Inv(w) && id in w.sweeps && w' == SweepStep(w, id, a)
    ensures Inv(w')
  {
    if w.sweeps[id].SweepClean? { SweepCleansOk(w, id, a, w'); } else { SweepWritesOk(w, id, a, w'); }
  }

  lemma NextKeepsInv(w: World, action: Action)
    requires Inv(w) && Guarded(w, action)
    ensures Inv(Next(w, action))
  {
    match action
    case Advance(id, a) => if id in w.requests { AdvanceKeepsInv(w, id, a); }
    case AdvanceSweep(id, a) => if id in w.sweeps { SweepKeepsInv(w, id, a, Next(w, action)); }
    case Begin(_, _, _, _, _, _) => BeginKeepsInv(w, action);
    case TakeEffect(tag, k) =>
      if tag in w.provider.inFlight && k !in w.provider.origin { TakeEffectKeepsInv(w, tag, k); }
    case Evaporate(tag) => EvaporateKeepsInv(w, tag);
    case Acknowledge(s) => AcknowledgeKeepsInv(w, s);
    case RemoveKey(k) => RemoveKeepsInv(w, k);
    case Crash(_) =>
    case BeginSweep(_, _) =>
  }

  lemma BeginKeepsInv(w: World, action: Action)
    requires Inv(w) && action.Begin?
    ensures Inv(Next(w, action))
  {
    var v := Next(w, action);
    if v != w {
      forall i | i in v.requests ensures RequestOk(v.rows, v.provider, v.requests[i]) {
        if i == action.id { FreshRequestOk(w, v.requests[i]); } else { assert RequestOk(w.rows, w.provider, w.requests[i]); }
      }
    }
  }

  lemma FreshRequestOk(w: World, q: Request)
    requires RefsOk(w) && q.issueRef !in w.usedRefs && (q.pc.ReadRow? || q.pc.ReadStale?) && q.childKey.None? && !q.creationStarted
    ensures RequestOk(w.rows, w.provider, q)
  {
  }

  /** The provider moves on its own: requests, rows and sweeps are as they were. */
  lemma ProviderMoveKeepsInv(w: World, p': Provider, tag: Tag, v: World)
    requires Inv(w) && ProviderOk(p') && TableOk(w.rows, p') && ProviderStep(w.provider, p', tag)
    requires p'.inFlight <= w.provider.inFlight && (p'.origin == w.provider.origin || tag in w.provider.inFlight)
    requires v == w.(provider := p')
    ensures Inv(v)
  {
    forall i | i in v.requests ensures RequestOk(v.rows, p', v.requests[i]) {
      assert RequestOk(w.rows, w.provider, w.requests[i]);
    }
    forall i | i in v.sweeps ensures SweepOk(p', v.sweeps[i]) {
      assert SweepOk(w.provider, w.sweeps[i]);
    }
  }

  lemma TakeEffectKeepsInv(w: World, tag: Tag, k: KeyHash)
    requires Inv(w) && tag in w.provider.inFlight && k !in w.provider.origin
    ensures Inv(Next(w, TakeEffect(tag, k)))
  {
    ProviderCreates(w.rows, w.provider, tag, k);
    ProviderMoveKeepsInv(w, Creates(w.provider, tag, k), tag, Next(w, TakeEffect(tag, k)));
  }

  lemma EvaporateKeepsInv(w: World, tag: Tag)
    requires Inv(w)
    ensures Inv(Next(w, Evaporate(tag)))
  {
    var p' := w.provider.(inFlight := w.provider.inFlight - {tag});
    ProviderShrinks(w.rows, w.provider, p');
    ProviderMoveKeepsInv(w, p', tag, Next(w, Evaporate(tag)));
  }

  lemma AcknowledgeKeepsInv(w: World, s: Subject)
    requires Inv(w)
    ensures Inv(Next(w, Acknowledge(s)))
  {
  }

  lemma RemoveKeepsInv(w: World, k: KeyHash)
    requires Inv(w)
    ensures Inv(Next(w, RemoveKey(k)))
  {
    var p' := w.provider.(live := w.provider.live - {k});
    ProviderShrinks(w.rows, w.provider, p');
    ProviderMoveKeepsInv(w, p', Tag("", ""), Next(w, RemoveKey(k)));
  }

  /** Every guarded run keeps the invariant. */
  lemma {:induction false} RunKeepsInv(w: World, actions: seq<Action>)
    requires Inv(w) && GuardedFrom(w, actions)
    ensures Inv(Run(w, actions))
    decreases |actions|
  {
    if actions != [] {
      var n := |actions| - 1;
      GuardedPrefix(w, actions, n);
      RunKeepsInv(w, actions[..n]);
      NextKeepsInv(Run(w, actions[..n]), actions[n]);
    }
  }

  lemma GuardedPrefix(w: World, actions: seq<Action>, n: nat)
    requires n <= |actions| && GuardedFrom(w, actions)
    ensures GuardedFrom(w, actions[..n])
  {
    forall m | 0 <= m < n ensures Guarded(Run(w, actions[..n][..m]), actions[..n][m]) {
      assert actions[..n][..m] == actions[..m];
    }
  }

  // ---------------------------------------------------------------- main results

  /** The subject has a usable key, or a create call that may still make one. */
  ghost predicate Exposed(p: Provider, tag: Tag) {
    tag in p.inFlight || exists k :: k in p.live && k in p.origin && p.origin[k] == tag
  }

  /** All live keys and pending create calls of a subject belong to one call, which has one key or is pending. */
  ghost predicate OneKeyPerSubject(p: Provider) {
    && (forall t1, t2 :: Exposed(p, t1) && Exposed(p, t2) && t1.subject == t2.subject ==> t1 == t2)
    && (forall k1, k2 | k1 in p.live && k2 in p.live && k1 in p.origin && k2 in p.origin ::
          p.origin[k1].subject == p.origin[k2].subject ==> k1 == k2)
    && (forall k :: k in p.live && k in p.origin ==> p.origin[k] !in p.inFlight)
  }

  lemma InvHasOneKey(w: World)
    requires Inv(w)
    ensures OneKeyPerSubject(w.provider)
  {
    var p := w.provider;
    forall t1, t2 | Exposed(p, t1) && Exposed(p, t2) && t1.subject == t2.subject ensures t1 == t2 {
      assert Blocks(w.rows, t1) && Blocks(w.rows, t2);
    }
    forall k1, k2 | k1 in p.live && k2 in p.live && k1 in p.origin && k2 in p.origin
        && p.origin[k1].subject == p.origin[k2].subject
      ensures k1 == k2
    {
      assert Exposed(p, p.origin[k1]) && Exposed(p, p.origin[k2]);
    }
  }

  /** At most one key per subject, after any guarded run. */
  lemma AtMostOneKeyPerSubject(actions: seq<Action>)
    requires GuardedFrom(EmptyWorld, actions)
    ensures OneKeyPerSubject(Run(EmptyWorld, actions).provider)
  {
    RunKeepsInv(EmptyWorld, actions);
    InvHasOneKey(Run(EmptyWorld, actions));
  }

  /** createManagedChildKey is called for a subject only when nothing of it is live or pending. */
  lemma CreateOnlyWhenNothingIsLive(actions: seq<Action>, id: RequestId)
    requires GuardedFrom(EmptyWorld, actions)
    ensures var w := Run(EmptyWorld, actions);
      id in w.requests && w.requests[id].pc.CallCreate? ==> Unexposed(w.provider, w.requests[id].subject)
  {
    RunKeepsInv(EmptyWorld, actions);
    var w := Run(EmptyWorld, actions);
    if id in w.requests && w.requests[id].pc.CallCreate? {
      SettledIsUnexposed(w.rows, w.provider, w.requests[id].CallTag());
    }
  }

  /** No fresh request of the run is bound to an operation; resumes of operations are welcome. */
  predicate Unbound(actions: seq<Action>) {
    forall a | a in actions :: a.Begin? ==> !a.kind.Bound?
  }

  ghost predicate UnboundInv(w: World) {
    Inv(w) && forall i | i in w.requests :: !w.requests[i].kind.Bound?
  }

  lemma NextKeepsUnbound(w: World, action: Action)
    requires UnboundInv(w) && Guarded(w, action) && (action.Begin? ==> !action.kind.Bound?)
    ensures forall i | i in Next(w, action).requests :: !Next(w, action).requests[i].kind.Bound?
  {
    if action.Advance? && action.id in w.requests {
      var c := Scene(w.rows, w.provider, w.requests[action.id]);
      RequestStepOk(c, action.answer, RequestStep(c, action.answer));
    }
  }

  /** An unbound request frees a started row only once its call was rejected outright or its key cleaned up. */
  lemma UnboundStepIsGuarded(w: World, action: Action)
    requires UnboundInv(w)
    ensures Guarded(w, action)
  {
    if action.Advance? && action.id in w.requests {
      var q := w.requests[action.id];
      assert RequestOk(w.rows, w.provider, q);
      if q.pc.ReleaseAfterCleanup? { CleanedCallIsSettled(w.provider, q.CallTag(), q.childKey.value); }
    }
  }

  lemma CleanedCallIsSettled(p: Provider, tag: Tag, k: KeyHash)
    requires ProviderOk(p) && k in p.origin && p.origin[k] == tag && k !in p.live
    ensures Settled(p, tag)
  {
  }

  lemma UnboundStep(w: World, action: Action, v: World)
    requires UnboundInv(w) && (action.Begin? ==> !action.kind.Bound?) && v == Next(w, action)
    ensures UnboundInv(v)
  {
    UnboundStepIsGuarded(w, action);
    NextKeepsInv(w, action);
    NextKeepsUnbound(w, action);
  }

  lemma EmptyWorldIsUnbound()
    ensures UnboundInv(EmptyWorld)
  {
  }

  lemma {:induction false} UnboundRunKeepsInv(actions: seq<Action>, n: nat)
    requires Unbound(actions) && n <= |actions|
    ensures UnboundInv(Run(EmptyWorld, actions[..n]))
  {
    if n == 0 {
      assert actions[..0] == [];
      EmptyWorldIsUnbound();
    } else {
      UnboundRunKeepsInv(actions, n - 1);
      assert actions[n - 1] in actions;
      RunStep(EmptyWorld, actions, n - 1);
      UnboundStep(Run(EmptyWorld, actions[..n - 1]), actions[n - 1], Run(EmptyWorld, actions[..n]));
    }
  }

  /** Runs without bound requests, resumes included, are guarded: all results cover them unconditionally. */
  lemma UnboundRunsAreGuarded(actions: seq<Action>)
    requires Unbound(actions)
    ensures GuardedFrom(EmptyWorld, actions)
  {
    forall n | 0 <= n < |actions| ensures Guarded(Run(EmptyWorld, actions[..n]), actions[n]) {
      UnboundRunKeepsInv(actions, n);
      UnboundStepIsGuarded(Run(EmptyWorld, actions[..n]), actions[n]);
    }
  }

  // ---------------------------------------------------------------- requests bound to an operation

  lemma {:induction false} RunAppend(w: World, xs: seq<Action>, ys: seq<Action>)
    ensures Run(w, xs + ys) == Run(Run(w, xs), ys)
    decreases |ys|
  {
    if ys == [] {
      assert xs + ys == xs;
    } else {
      assert (xs + ys)[..|xs + ys| - 1] == xs + ys[..|ys| - 1];
      RunAppend(w, xs, ys[..|ys| - 1]);
    }
  }

  /** A request that finds no row and meets no obstacle: it reserves, then it calls create. */
  function ReservePart(id: RequestId, s: Subject, r: IssueRef, kind: Kind): seq<Action> {
    [Begin(id, s, r, 0, true, kind), Advance(id, Returns(false)), Advance(id, Returns(false))]
  }

  function CallPart(id: RequestId): seq<Action> {
    [Advance(id, Returns(false)), Advance(id, Returns(false)), Advance(id, Returns(false))]
  }

  lemma RunThree(w: World, x: Action, y: Action, z: Action)
    ensures Run(w, [x, y, z]) == Next(Next(Next(w, x), y), z)
    ensures Run(w, [x, y, z][..0]) == w && Run(w, [x, y, z][..1]) == Next(w, x) && Run(w, [x, y, z][..2]) == Next(Next(w, x), y)
  {
    var xyz := [x, y, z];
    assert xyz[..0] == [] && xyz[..3] == xyz;
    RunStep(w, xyz, 0);
    RunStep(w, xyz, 1);
    RunStep(w, xyz, 2);
  }

  lemma Reserves(w: World, id: RequestId, s: Subject, r: IssueRef, kind: Kind, w': World)
    requires !kind.Resumed? && s !in w.rows && id !in w.requests && r !in w.usedRefs
    requires w' == Run(w, ReservePart(id, s, r, kind))
    ensures w'.rows == w.rows[s := Row(Issuing, r, None, 0, None)] && w'.provider == w.provider
    ensures w'.requests == w.requests[id := Request(s, r, 0, true, kind, CheckDailyCap, true, false, None, false)]
    ensures w'.usedRefs == w.usedRefs + {r}
  {
    var begin, go := Begin(id, s, r, 0, true, kind), Advance(id, Returns(false));
    RunThree(w, begin, go, go);
    assert Next(Next(w, begin), go).requests[id].pc == Insert;
  }

  lemma Calls(w: World, id: RequestId, w': World)
    requires id in w.requests && w.requests[id].pc == CheckDailyCap
    requires w.requests[id].childKey.None? && Untouched(w.rows, w.requests[id].subject, w.requests[id].issueRef)
    requires w' == Run(w, CallPart(id))
    ensures var q := w.requests[id];
      && w'.rows == MarkStarted(w.rows, q.subject, q.issueRef, q.now)
      && w'.provider == w.provider.(inFlight := w.provider.inFlight + {q.CallTag()})
      && w'.requests == w.requests[id := q.(pc := AwaitCreate, creationStarted := true)]
      && w'.usedRefs == w.usedRefs
  {
    var go, q := Advance(id, Returns(false)), w.requests[id];
    RunThree(w, go, go, go);
    PassesCap(w, id, go);
    MarksStarted(Next(w, go), id, go);
    LeavesForProvider(Next(Next(w, go), go), id, go);
  }

  lemma PassesCap(w: World, id: RequestId, go: Action)
    requires id in w.requests && w.requests[id].pc == CheckDailyCap && go == Advance(id, Returns(false))
    requires w.requests[id].childKey.None?
    ensures Next(w, go) == w.(requests := w.requests[id := w.requests[id].At(MarkCreationStarted)])
  {
  }

  lemma MarksStarted(w: World, id: RequestId, go: Action)
    requires id in w.requests && w.requests[id].pc == MarkCreationStarted && go == Advance(id, Returns(false))
    requires w.requests[id].childKey.None? && Untouched(w.rows, w.requests[id].subject, w.requests[id].issueRef)
    ensures var q := w.requests[id];
      Next(w, go) == w.(rows := MarkStarted(w.rows, q.subject, q.issueRef, q.now),
                        requests := w.requests[id := q.(pc := CallCreate, creationStarted := true)])
  {
  }

  lemma LeavesForProvider(w: World, id: RequestId, go: Action)
    requires id in w.requests && w.requests[id].pc == CallCreate && go == Advance(id, Returns(false))
    ensures var q := w.requests[id];
      Next(w, go) == w.(provider := w.provider.(inFlight := w.provider.inFlight + {q.CallTag()}),
                        requests := w.requests[id := q.At(AwaitCreate)])
  {
  }

  lemma AnswerIsLost(w: World, id: RequestId, w': World)
    requires id in w.requests && w.requests[id].pc == AwaitCreate && w' == Next(w, Advance(id, Lost))
    requires var q := w.requests[id]; q.kind.Bound? && q.reservationCreated && q.childKey.None?
    ensures w' == w.(requests := w.requests[id := w.requests[id].At(ReleaseWithoutKey)])
  {
  }

  /** The catch block of a bound request frees the started row although the call may still take effect. */
  lemma LostCallFreesRow(w: World, id: RequestId, w': World)
    requires id in w.requests && w.requests[id].pc == AwaitCreate
    requires var q := w.requests[id]; q.kind.Bound? && q.reservationCreated && q.creationStarted && q.childKey.None?
    requires StartedUnattached(w.rows, w.requests[id].subject, w.requests[id].issueRef)
    requires w' == Run(w, [Advance(id, Lost), Advance(id, Returns(false)), Crash(id)])
    ensures w'.rows == w.rows - {w.requests[id].subject} && w'.provider == w.provider
    ensures w'.requests == w.requests - {id} && w'.usedRefs == w.usedRefs
  {
    RunThree(w, Advance(id, Lost), Advance(id, Returns(false)), Crash(id));
    AnswerIsLost(w, id, Next(w, Advance(id, Lost)));
  }

  /** A fresh request that reserves and calls create, step by step, is guarded. */
  lemma ReservingIsGuarded(w: World, id: RequestId, s: Subject, r: IssueRef)
    requires s !in w.rows && id !in w.requests && r !in w.usedRefs
    ensures GuardedFrom(w, ReservePart(id, s, r, Plain))
  {
    var begin, go := Begin(id, s, r, 0, true, Plain), Advance(id, Returns(false));
    RunThree(w, begin, go, go);
    var w1 := Next(w, begin);
    assert w1.requests[id].pc == ReadRow && Next(w1, go).requests[id].pc == Insert;
    forall n | 0 <= n < 3 ensures Guarded(Run(w, [begin, go, go][..n]), [begin, go, go][n]) {
    }
  }

  lemma CallingIsGuarded(w: World, id: RequestId)
    requires id in w.requests && w.requests[id].pc == CheckDailyCap
    requires w.requests[id].childKey.None? && Untouched(w.rows, w.requests[id].subject, w.requests[id].issueRef)
    ensures GuardedFrom(w, CallPart(id))
  {
    var go := Advance(id, Returns(false));
    RunThree(w, go, go, go);
    PassesCap(w, id, go);
    MarksStarted(Next(w, go), id, go);
    forall n | 0 <= n < 3 ensures Guarded(Run(w, [go, go, go][..n]), [go, go, go][n]) {
    }
  }

  lemma GuardedAppend(w: World, xs: seq<Action>, ys: seq<Action>)
    requires GuardedFrom(w, xs) && GuardedFrom(Run(w, xs), ys)
    ensures GuardedFrom(w, xs + ys)
  {
    forall n | 0 <= n < |xs + ys| ensures Guarded(Run(w, (xs + ys)[..n]), (xs + ys)[n]) {
      GuardedInAppend(w, xs, ys, n);
    }
  }

  lemma GuardedInAppend(w: World, xs: seq<Action>, ys: seq<Action>, n: nat)
    requires GuardedFrom(w, xs) && GuardedFrom(Run(w, xs), ys) && n < |xs + ys|
    ensures Guarded(Run(w, (xs + ys)[..n]), (xs + ys)[n])
  {
    if n < |xs| {
      assert (xs + ys)[..n] == xs[..n];
      assert Guarded(Run(w, xs[..n]), xs[n]);
    } else {
      var m := n - |xs|;
      assert (xs + ys)[..n] == xs + ys[..m];
      RunAppend(w, xs, ys[..m]);
      assert Guarded(Run(Run(w, xs), ys[..m]), ys[m]);
    }
  }

  /** A step that frees the row of an unsettled call leaves it exposed and its subject without a row. */
  lemma UnguardedFreesSubject(w: World, action: Action, v: World)
    requires !Guarded(w, action) && v == Next(w, action)
    ensures v.provider == w.provider
    ensures w.requests[action.id].subject !in v.rows && Exposed(v.provider, w.requests[action.id].CallTag())
    ensures v.usedRefs == w.usedRefs
  {
  }

  /** From there a fresh request reserves the subject and calls create while the first call is exposed. */
  lemma FreedSubjectIsIssuedTwice(v: World, tag: Tag) returns (rest: seq<Action>)
    requires tag.subject !in v.rows && Exposed(v.provider, tag) && tag.issueRef in v.usedRefs
    ensures GuardedFrom(v, rest) && !OneKeyPerSubject(Run(v, rest).provider)
  {
    var id := FreshString(v.requests.Keys);
    var r := FreshString(v.usedRefs);
    var reserving := ReservePart(id, tag.subject, r, Plain);
    var u := Run(v, reserving);
    rest := reserving + CallPart(id);
    ReservingIsGuarded(v, id, tag.subject, r);
    Reserves(v, id, tag.subject, r, Plain, u);
    CallingIsGuarded(u, id);
    GuardedAppend(v, reserving, CallPart(id));
    Calls(u, id, Run(u, CallPart(id)));
    RunAppend(v, reserving, CallPart(id));
    TwoExposed(v.provider, Run(v, rest).provider, tag, Tag(tag.subject, r));
  }

  lemma TwoExposed(p: Provider, p': Provider, tag: Tag, other: Tag)
    requires Exposed(p, tag) && p' == p.(inFlight := p.inFlight + {other}) && tag != other && tag.subject == other.subject
    ensures !OneKeyPerSubject(p')
  {
    assert Exposed(p', tag) && Exposed(p', other);
  }

  lemma FirstUnguarded(actions: seq<Action>, n: nat) returns (m: nat)
    requires n < |actions| && !Guarded(Run(EmptyWorld, actions[..n]), actions[n])
    ensures m < |actions| && !Guarded(Run(EmptyWorld, actions[..m]), actions[m]) && GuardedFrom(EmptyWorld, actions[..m])
    decreases n
  {
    m := n;
    if !GuardedFrom(EmptyWorld, actions[..n]) {
      var k: nat :| k < n && !Guarded(Run(EmptyWorld, actions[..n][..k]), actions[..n][k]);
      assert actions[..n][..k] == actions[..k];
      m := FirstUnguarded(actions, k);
    }
  }

  lemma UnguardedRunsIssueTwice(actions: seq<Action>, n: nat) returns (rest: seq<Action>)
    requires n < |actions| && !Guarded(Run(EmptyWorld, actions[..n]), actions[n]) && GuardedFrom(EmptyWorld, actions[..n])
    ensures GuardedFrom(Run(EmptyWorld, actions[..n + 1]), rest)
    ensures !OneKeyPerSubject(Run(EmptyWorld, actions[..n + 1] + rest).provider)
  {
    var w := Run(EmptyWorld, actions[..n]);
    var v := Next(w, actions[n]);
    UnguardedFreesSubject(w, actions[n], v);
    RunKeepsInv(EmptyWorld, actions[..n]);
    rest := FreedSubjectIsIssuedTwice(v, w.requests[actions[n].id].CallTag());
    RunStep(EmptyWorld, actions, n);
    RunAppend(EmptyWorld, actions[..n + 1], rest);
  }

  const LOSING := [Advance("1", Lost), Advance("1", Returns(false)), Crash("1")]

  /** A bound request loses its create call, and its row is gone while the call is still in flight. */
  lemma LostCallIsForgotten(w: World)
    requires w == Run(EmptyWorld, ReservePart("1", "s", "r1", Bound) + CallPart("1") + LOSING)
    ensures "s" !in w.rows && Tag("s", "r1") in w.provider.inFlight && "r1" in w.usedRefs
  {
    var u := Run(EmptyWorld, ReservePart("1", "s", "r1", Bound));
    var v := Run(u, CallPart("1"));
    RunAppend(EmptyWorld, ReservePart("1", "s", "r1", Bound) + CallPart("1"), LOSING);
    RunAppend(EmptyWorld, ReservePart("1", "s", "r1", Bound), CallPart("1"));
    Reserves(EmptyWorld, "1", "s", "r1", Bound, u);
    Calls(u, "1", v);
    LostCallFreesRow(v, "1", w);
  }

  /**
   With an operation the catch block frees the started row of a lost create call, and the next
   request calls create while the first call may still make its key.
   */
  lemma BoundRequestsEscape() returns (actions: seq<Action>)
    ensures !OneKeyPerSubject(Run(EmptyWorld, actions).provider)
  {
    var losing := ReservePart("1", "s", "r1", Bound) + CallPart("1") + LOSING;
    LostCallIsForgotten(Run(EmptyWorld, losing));
    var rest := FreedSubjectIsIssuedTwice(Run(EmptyWorld, losing), Tag("s", "r1"));
    actions := losing + rest;
    RunAppend(EmptyWorld, losing, rest);
  }

  /** A bound request gets its key, cannot deliver it and skips the cleanup its operation reported. */
  const FAILING := [Advance("1", Created("key")), Advance("1", Returns(false)), Advance("1", Throws(false))]
  const SKIPPING := [Advance("1", Handled), Advance("1", Returns(false)), Crash("1")]

  lemma KeyArrives(w: World, w': World)
    requires "1" in w.requests && w.requests["1"].pc == AwaitCreate && w' == Next(w, Advance("1", Created("key")))
    requires w.requests["1"].CallTag() in w.provider.inFlight && "key" !in w.provider.origin
    ensures w' == w.(provider := Creates(w.provider, w.requests["1"].CallTag(), "key"),
                     requests := w.requests["1" := w.requests["1"].(childKey := Some("key"), pc := AttachKey)])
  {
  }

  lemma KeyIsAttached(w: World, w': World)
    requires "1" in w.requests && w.requests["1"].pc == AttachKey && w' == Next(w, Advance("1", Returns(false)))
    requires var q := w.requests["1"]; q.childKey == Some("key") && StartedUnattached(w.rows, q.subject, q.issueRef)
    ensures var q := w.requests["1"];
            w' == w.(rows := Attach(w.rows, q.subject, q.issueRef, "key"),
                     requests := w.requests["1" := q.(pc := AssignGuardrail, keyAttached := true)])
  {
  }

  lemma GuardrailFails(w: World, w': World)
    requires "1" in w.requests && w.requests["1"].pc == AssignGuardrail && w' == Next(w, Advance("1", Throws(false)))
    requires w.requests["1"].reservationCreated && w.requests["1"].childKey.Some?
    ensures w' == w.(requests := w.requests["1" := w.requests["1"].At(CleanUpKey)])
  {
  }

  lemma KeyIsTaken(w: World, u: World, v: World)
    requires "1" in w.requests && w.requests["1"].pc == AwaitCreate
    requires u == Next(w, Advance("1", Created("key"))) && v == Next(u, Advance("1", Returns(false)))
    requires StartedUnattached(w.rows, w.requests["1"].subject, w.requests["1"].issueRef)
    requires w.requests["1"].CallTag() in w.provider.inFlight && "key" !in w.provider.origin
    ensures var q := w.requests["1"];
            v == w.(rows := Attach(w.rows, q.subject, q.issueRef, "key"), provider := Creates(w.provider, q.CallTag(), "key"),
                    requests := w.requests["1" := q.(childKey := Some("key"), pc := AssignGuardrail, keyAttached := true)])
  {
    KeyArrives(w, u);
    KeyIsAttached(u, v);
    assert u.requests["1" := v.requests["1"]] == w.requests["1" := v.requests["1"]];
  }

  lemma KeyCannotBeDelivered(w: World, v: World, w': World)
    requires "1" in w.requests && w.requests["1"].reservationCreated
    requires var q := w.requests["1"];
             v == w.(rows := Attach(w.rows, q.subject, q.issueRef, "key"), provider := v.provider,
                     requests := w.requests["1" := q.(childKey := Some("key"), pc := AssignGuardrail, keyAttached := true)])
    requires w' == Next(v, Advance("1", Throws(false)))
    ensures w' == v.(requests := w.requests["1" := w.requests["1"].(childKey := Some("key"), keyAttached := true, pc := CleanUpKey)])
  {
    GuardrailFails(v, w');
    assert v.requests["1" := w'.requests["1"]] == w.requests["1" := w'.requests["1"]];
  }

  lemma UndeliveredKey(w: World, w': World)
    requires "1" in w.requests && w.requests["1"].pc == AwaitCreate && w' == Run(w, FAILING)
    requires w.requests["1"].reservationCreated
    requires StartedUnattached(w.rows, w.requests["1"].subject, w.requests["1"].issueRef)
    requires w.requests["1"].CallTag() in w.provider.inFlight && "key" !in w.provider.origin
    ensures var q := w.requests["1"];
            && w'.rows == Attach(w.rows, q.subject, q.issueRef, "key") && w'.usedRefs == w.usedRefs
            && w'.provider == Creates(w.provider, q.CallTag(), "key")
            && w'.requests == w.requests["1" := q.(childKey := Some("key"), keyAttached := true, pc := CleanUpKey)]
  {
    RunThree(w, Advance("1", Created("key")), Advance("1", Returns(false)), Advance("1", Throws(false)));
    var u := Next(w, Advance("1", Created("key")));
    var v := Next(u, Advance("1", Returns(false)));
    KeyIsTaken(w, u, v);
    KeyCannotBeDelivered(w, v, w');
  }

  lemma CleanupIsSkipped(w: World, w': World)
    requires "1" in w.requests && w.requests["1"].pc == CleanUpKey && w' == Next(w, Advance("1", Handled))
    requires w.requests["1"].kind.Bound? && w.requests["1"].childKey.Some?
    ensures w' == w.(requests := w.requests["1" := w.requests["1"].At(ReleaseAfterCleanup)])
  {
  }

  lemma SkippedCleanupFreesRow(w: World, w': World)
    requires "1" in w.requests && w.requests["1"].pc == CleanUpKey && w' == Run(w, SKIPPING)
    requires var q := w.requests["1"];
             && q.kind.Bound? && q.keyAttached && q.childKey.Some?
             && Holding(w.rows, q.subject, q.issueRef, q.childKey.value, {Issuing})
    ensures w'.rows == w.rows - {w.requests["1"].subject} && w'.provider == w.provider && w'.usedRefs == w.usedRefs
  {
    RunThree(w, SKIPPING[0], SKIPPING[1], SKIPPING[2]);
    CleanupIsSkipped(w, Next(w, SKIPPING[0]));
  }

  lemma SkippedKeyIsForgotten(w: World)
    requires w == Run(EmptyWorld, ReservePart("1", "s", "r1", Bound) + CallPart("1") + FAILING + SKIPPING)
    ensures "s" !in w.rows && Exposed(w.provider, Tag("s", "r1")) && "r1" in w.usedRefs
  {
    var reserving, calling := ReservePart("1", "s", "r1", Bound), CallPart("1");
    var u := Run(EmptyWorld, reserving);
    var v := Run(u, calling);
    var x := Run(v, FAILING);
    RunAppend(EmptyWorld, reserving + calling + FAILING, SKIPPING);
    RunAppend(EmptyWorld, reserving + calling, FAILING);
    RunAppend(EmptyWorld, reserving, calling);
    Reserves(EmptyWorld, "1", "s", "r1", Bound, u);
    Calls(u, "1", v);
    UndeliveredKey(v, x);
    SkippedCleanupFreesRow(x, w);
    assert "key" in w.provider.live && w.provider.origin["key"] == Tag("s", "r1");
  }

  /**
   With an operation that is reported retryable the catch block asks for no cleanup and frees the row
   of a live key, and the next request calls create.
   */
  lemma SkippedCleanupEscapes() returns (actions: seq<Action>)
    ensures !OneKeyPerSubject(Run(EmptyWorld, actions).provider)
  {
    var skipping := ReservePart("1", "s", "r1", Bound) + CallPart("1") + FAILING + SKIPPING;
    SkippedKeyIsForgotten(Run(EmptyWorld, skipping));
    var rest := FreedSubjectIsIssuedTwice(Run(EmptyWorld, skipping), Tag("s", "r1"));
    actions := skipping + rest;
    RunAppend(EmptyWorld, skipping, rest);
  }

  /**
   For every run, with requests bound to an operation or not: at each of its moments and after any
   guarded continuation a subject has at most one key, exactly when no failure path of the run freed
   a started row, with or without a key, while its create call had a live key or could still make one.
   */
  lemma OneKeyExactlyInGuardedRuns(actions: seq<Action>)
    ensures (forall n: nat, rest: seq<Action> | n <= |actions| && GuardedFrom(Run(EmptyWorld, actions[..n]), rest) ::
               OneKeyPerSubject(Run(EmptyWorld, actions[..n] + rest).provider))
            <==> GuardedFrom(EmptyWorld, actions)
  {
    if GuardedFrom(EmptyWorld, actions) {
      forall n: nat, rest: seq<Action> | n <= |actions| && GuardedFrom(Run(EmptyWorld, actions[..n]), rest)
        ensures OneKeyPerSubject(Run(EmptyWorld, actions[..n] + rest).provider)
      {
        GuardedPrefix(EmptyWorld, actions, n);
        GuardedAppend(EmptyWorld, actions[..n], rest);
        AtMostOneKeyPerSubject(actions[..n] + rest);
      }
    } else {
      var n: nat :| n < |actions| && !Guarded(Run(EmptyWorld, actions[..n]), actions[n]);
      var m := FirstUnguarded(actions, n);
      var rest := UnguardedRunsIssueTwice(actions, m);
      assert m + 1 <= |actions|;
    }
  }

  // ---------------------------------------------------------------- the broker's own code

  /** The entitlement table and the provider, with the statements of the handler as they are run. */
  class QqBroker {
    var rows: Table
    var provider: Provider

    /** INSERT .. ON CONFLICT DO NOTHING */
    method InsertQqReservation(s: Subject, r: IssueRef, now: Time) returns (inserted: bool)
      modifies this`rows
      ensures rows == InsertReservation(old(rows), s, r, now) && (inserted <==> s !in old(rows))
    {
      inserted := s !in rows;
      if inserted {
        rows := rows[s := Row(Issuing, r, None, now, None)];
      }
    }

    method ReclaimStaleQqReservation(s: Subject, seen: IssueRef, r: IssueRef, now: Time) returns (changed: bool)
      modifies this`rows
      ensures rows == Reclaim(old(rows), s, seen, r, now) && (changed <==> Untouched(old(rows), s, seen))
    {
      changed := s in rows && rows[s].issueRef == seen && rows[s].status == Issuing
        && rows[s].credential == None && rows[s].startedAt == None;
      if changed {
        rows := rows[s := rows[s].(issueRef := r, reservedAt := now, startedAt := None)];
      }
    }

    method MarkQqChildKeyCreationStarted(s: Subject, r: IssueRef, now: Time) returns (changed: bool)
      modifies this`rows
      ensures rows == MarkStarted(old(rows), s, r, now) && (changed <==> Untouched(old(rows), s, r))
    {
      changed := s in rows && rows[s].issueRef == r && rows[s].status == Issuing
        && rows[s].credential == None && rows[s].startedAt == None;
      if changed {
        rows := rows[s := rows[s].(startedAt := Some(now))];
      }
    }

    method AttachManagedCredential(s: Subject, r: IssueRef, k: KeyHash) returns (changed: bool)
      modifies this`rows
      ensures rows == Attach(old(rows), s, r, k) && (changed <==> StartedUnattached(old(rows), s, r))
    {
      changed := s in rows && rows[s].issueRef == r && rows[s].status == Issuing
        && rows[s].credential == None && rows[s].startedAt != None;
      if changed {
        rows := rows[s := rows[s].(credential := Some(k))];
      }
    }

    /** Delivery-pending, activation and the two cleanup-required updates of an attached key. */
    method UpdateHolding(s: Subject, r: IssueRef, k: KeyHash, from: set<Status>, to: Status) returns (changed: bool)
      modifies this`rows
      ensures rows == SetStatus(old(rows), s, r, k, from, to) && (changed <==> Holding(old(rows), s, r, k, from))
    {
      changed := s in rows && rows[s].issueRef == r && rows[s].status in from && rows[s].credential == Some(k);
      if changed {
        rows := rows[s := rows[s].(status := to)];
      }
    }

    method ResetStaleQqReservationForRetry(s: Subject, k: KeyHash) returns (changed: bool)
      modifies this`rows
      ensures rows == ResetStale(old(rows), s, k) && (changed <==> HoldsDelivery(old(rows), s, k))
    {
      changed := s in rows && rows[s].status == DeliveryPending && rows[s].credential == Some(k);
      if changed {
        rows := rows[s := rows[s].(status := Issuing, credential := None, startedAt := None)];
      }
    }

    /** The DELETE of the failure paths, chosen by the flags of the request. */
    method ReleaseReservation(q: Request)
      requires q.keyAttached ==> q.childKey.Some?
      modifies this`rows
      ensures rows ==
        if q.keyAttached then ReleaseCleaned(old(rows), q.subject, q.issueRef, q.childKey.value)
        else if q.creationStarted then ReleaseStarted(old(rows), q.subject, q.issueRef)
        else ReleaseUnstarted(old(rows), q.subject, q.issueRef)
    {
      if q.subject in rows && rows[q.subject].issueRef == q.issueRef {
        var row := rows[q.subject];
        if q.keyAttached {
          if row.status in {Issuing, DeliveryPending, Active} && row.credential == q.childKey {
            rows := rows - {q.subject};
          }
        } else if row.status == Issuing && row.credential == None && (row.startedAt != None) == q.creationStarted {
          rows := rows - {q.subject};
        }
      }
    }

    /** handleQqManagedChildKeyFailure after the provider has answered: release the row or flag it. */
    method FinishChildKeyFailure(q: Request, cleanedUp: bool)
      requires q.childKey.Some? && q.creationStarted
      modifies this`rows
      ensures
        var s, r, k := q.subject, q.issueRef, q.childKey.value;
        rows ==
          if cleanedUp then (if q.keyAttached then ReleaseCleaned(old(rows), s, r, k) else ReleaseStarted(old(rows), s, r))
          else if q.keyAttached then SetStatus(old(rows), s, r, k, {Issuing, DeliveryPending, Active}, CleanupRequired)
          else MarkUnattachedCleanup(old(rows), s, r, k)
    {
      if cleanedUp {
        ReleaseReservation(q);
      } else if q.keyAttached {
        var _ := UpdateHolding(q.subject, q.issueRef, q.childKey.value, {Issuing, DeliveryPending, Active}, CleanupRequired);
      } else {
        var s := q.subject;
        if s in rows && rows[s].issueRef == q.issueRef && rows[s].status == Issuing
          && rows[s].credential == None && rows[s].startedAt != None
        {
          rows := rows[s := rows[s].(status := CleanupRequired, credential := q.childKey)];
        }
      }
    }

    /** The reserving statements of the try block; a throw lands in the catch block. */
    method AdvanceReserving(q: Request, a: Answer) returns (next: Request)
      requires q.childKey.None? && (a.Returns? || a.Throws?)
      modifies this`rows
      ensures Scene(rows, provider, next) == ReserveStep(Scene(old(rows), provider, q), a)
    {
      var runs, ok := a.Returns? || a.applied, true;
      next := q;
      match q.pc {
        case ReadStale =>
          next := AfterStaleRead(rows, q, a);
        case TakeBackStale(k) =>
          ok := HoldsDelivery(rows, q.subject, k);
          if runs { ok := ResetStaleQqReservationForRetry(q.subject, k); }
          next := q.At(if ok then ReadRow else Finished(Refused));
        case ReadRow =>
          next := q.At(if LifetimeBlocking(rows, q.subject) || (a.Returns? && a.flag) then Finished(Refused) else Insert);
        case Insert =>
          ok := q.subject !in rows;
          if runs { ok := InsertQqReservation(q.subject, q.issueRef, q.now); }
          next := if ok then q.(pc := CheckDailyCap, reservationCreated := true) else q.At(Reread);
        case Reread =>
          next := AfterConflict(rows, q);
        case MarkStaleCleanup(seen, k) =>
          if runs { ok := UpdateHolding(q.subject, seen, k, {Issuing}, CleanupRequired); }
          return q.At(Finished(Refused));
        case ReclaimStale(seen) =>
          ok := Untouched(rows, q.subject, seen);
          if runs { ok := ReclaimStaleQqReservation(q.subject, seen, q.issueRef, q.now); }
          next := if ok then q.(pc := CheckDailyCap, reservationCreated := true) else q.At(Finished(Refused));
        case CheckDailyCap =>
          next := q.At(if a.Returns? && a.flag then ReleaseAtCap else MarkCreationStarted);
        case ReleaseAtCap =>
          if runs { ReleaseReservation(q.(creationStarted := false, keyAttached := false)); }
          next := q.(pc := Finished(Refused), reservationCreated := false);
        case MarkCreationStarted =>
          ok := Untouched(rows, q.subject, q.issueRef);
          if runs { ok := MarkQqChildKeyCreationStarted(q.subject, q.issueRef, q.now); }
          next := if ok then q.(pc := CallCreate, creationStarted := true) else Catch(q, false);
        case _ => return q;
      }
      if a.Throws? { next := Catch(q, false); }
    }

    /** The cleanup of a key at the provider, which a bound request leaves out when it was told so. */
    method AdvanceCleanup(q: Request, a: Answer) returns (next: Request)
      requires (q.pc.CleanUpKey? && q.childKey.Some?) || (q.pc.CleanStale? && q.childKey.None?)
      modifies this`provider
      ensures Scene(rows, provider, next) == RequestStep(Scene(rows, old(provider), q), a)
    {
      var own, k := q.pc.CleanUpKey?, if q.pc.CleanUpKey? then q.childKey.value else q.pc.stale;
      if a.CleanedUp? || (a.CleanupFailed? && a.removed) {
        provider := provider.(live := provider.live - {k});
      }
      match a {
        case CleanedUp => next := q.At(if own then ReleaseAfterCleanup else TakeBackStale(k));
        case CleanupFailed(_) => next := q.At(if own then MarkCleanup else Finished(Refused));
        case Handled => next := if own && q.kind.Bound? then q.At(ReleaseAfterCleanup) else q;
        case _ => next := q;
      }
    }

    /** The statements once a key is at hand: attach it, deliver it or give it up. */
    method AdvanceKey(q: Request, a: Answer) returns (next: Request)
      requires q.childKey.Some? && q.creationStarted && (a.Returns? || a.Throws?)
      modifies this`rows
      ensures Scene(rows, provider, next) == KeyStep(Scene(old(rows), provider, q), a)
    {
      var runs, ok := a.Returns? || a.applied, true;
      var s, r, k := q.subject, q.issueRef, q.childKey.value;
      match q.pc {
        case AttachKey =>
          ok := StartedUnattached(rows, s, r);
          if runs { ok := AttachManagedCredential(s, r, k); }
          next := if ok then q.(pc := AssignGuardrail, keyAttached := true) else Catch(q, false);
        case AssignGuardrail =>
          next := q.At(if q.ack then MarkDeliveryPending else Activate);
        case MarkDeliveryPending =>
          ok := Holding(rows, s, r, k, {Issuing});
          if runs { ok := UpdateHolding(s, r, k, {Issuing}, DeliveryPending); }
          next := if ok then q.At(CreateDelivery) else Catch(q, false);
        case Activate =>
          ok := Holding(rows, s, r, k, {Issuing, DeliveryPending});
          if runs { ok := UpdateHolding(s, r, k, {Issuing, DeliveryPending}, Active); }
          next := if ok then q.At(RecordIssueSuccess) else Catch(q, false);
        case CreateDelivery =>
          next := q.At(Finished(if q.kind.Resumed? && a.Returns? && a.flag then Failed else Issued(k)));
        case RecordIssueSuccess => next := q.At(Finished(Issued(k)));
        case ReleaseAfterCleanup =>
          if runs { FinishChildKeyFailure(q, true); }
          return q.At(Finished(Failed));
        case MarkCleanup =>
          if runs { FinishChildKeyFailure(q, false); }
          return q.At(Finished(Failed));
        case _ => return q;
      }
      if a.Throws? { next := Catch(q, false); }
    }
  }
}
