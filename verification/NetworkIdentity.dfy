/**
 Counting requests by keyed digests of their address instead of the address itself: the digests and
 window candidates of network-identity.ts, the row matching of abuse-controls.ts, and the migration
 of network-identity-migration.ts from one to the other.

 HMAC is taken as injective.  `origin` is the address a request really had; no column need keep it.
 */
module NetworkIdentity {
  import opened Common
  import IpCanonical

  type EventId = nat
  type Time = int

  const DAY_MS: int := 86_400_000

  datatype Key = Key(secret: string, version: nat)

  datatype Secrets = Secrets(current: Key, previous: Option<Key>)

  datatype Scope = IpScope | PrefixScope

  datatype Digest = Hmac(key: Key, epoch: int, scope: Scope, subject: string)

  function Day(t: Time): int { t / DAY_MS }

  predicate Knows(s: Secrets, k: Key) {
    k == s.current || s.previous == Some(k)
  }

  /** resolveRequestNetworkIdentity, as far as the address digest goes. */
  function WriteDigest(s: Secrets, ip: string, now: Time): Option<Digest> {
    match IpCanonical.Normalize(ip)
    case None => None
    case Some(normal) => Some(Hmac(s.current, Day(now), IpScope, normal))
  }

  // ---------------------------------------------------------------- window candidates

  /** What a query over a window accepts as a digest of `subject`. */
  predicate IsCandidate(s: Secrets, subject: string, scope: Scope, windowStart: Time, now: Time, d: Digest) {
    Knows(s, d.key) && Day(windowStart) <= d.epoch <= Day(now) && d.scope == scope && d.subject == subject
  }

  /** enumerateNetworkIdentityEpochs: every UTC day the window touches, once and in order. */
  method EnumerateNetworkIdentityEpochs(windowStart: Time, now: Time) returns (epochs: seq<int>)
    ensures forall d :: d in epochs <==> Day(windowStart) <= d <= Day(now)
    ensures forall i, j :: 0 <= i < j < |epochs| ==> epochs[i] < epochs[j]
  {
    var day, end := Day(windowStart), Day(now);
    epochs := [];
    while day <= end
      invariant Day(windowStart) <= day && (day <= end + 1 || epochs == [])
      invariant forall d :: d in epochs <==> Day(windowStart) <= d < day && d <= end
      invariant forall i, j :: 0 <= i < j < |epochs| ==> epochs[i] < epochs[j]
      invariant forall i :: 0 <= i < |epochs| ==> epochs[i] < day
      decreases end - day
    {
      epochs := epochs + [day];
      day := day + 1;
    }
  }

  /** deriveNetworkIdentityDigestsForWindow: one digest per day and known key, and nothing else. */
  method DeriveDigestsForWindow(s: Secrets, subject: string, scope: Scope, windowStart: Time, now: Time) returns (out: seq<Digest>)
    ensures forall d :: d in out <==> IsCandidate(s, subject, scope, windowStart, now, d)
  {
    var epochs := EnumerateNetworkIdentityEpochs(windowStart, now);
    out := [];
    for i := 0 to |epochs|
      invariant forall d :: d in out <==> Knows(s, d.key) && d.epoch in epochs[..i] && d.scope == scope && d.subject == subject
    {
      out := out + [Hmac(s.current, epochs[i], scope, subject)];
      if s.previous.Some? { out := out + [Hmac(s.previous.value, epochs[i], scope, subject)]; }
      assert epochs[..i + 1] == epochs[..i] + [epochs[i]];
    }
    assert epochs[..|epochs|] == epochs;
  }

  // ---------------------------------------------------------------- events

  datatype Mode = Dual | Keyed

  /** A row of broker_request_events; `unparseable` is the sentinel epoch. */
  datatype Event = Event(
    endpoint: string, origin: Option<string>, ip: Option<string>, digest: Option<Digest>, unparseable: bool,
    installation: Option<string>, at: Time)

  type Events = map<EventId, Event>

  /** recordRequestEvent, once there is an address or an installation. */
  function Recorded(mode: Mode, endpoint: string, ip: Option<string>, installation: Option<string>, s: Option<Secrets>, now: Time): Event {
    var digest := if ip.Some? && s.Some? then WriteDigest(s.value, ip.value, now) else None;
    Event(endpoint, ip, if mode.Keyed? then None else ip, digest, false, installation, now)
  }

  /** What every row keeps: columns that are set tell the truth about the origin. */
  predicate RowOk(e: Event) {
    && (e.ip.Some? ==> e.ip == e.origin)
    && (e.digest.Some? ==>
          e.origin.Some? && e.digest == WriteDigest(Secrets(e.digest.value.key, None), e.origin.value, e.at))
    && (e.unparseable ==> e.origin.Some? && IpCanonical.Normalize(e.origin.value).None?)
  }

  ghost predicate EventsOk(events: Events) {
    forall i | i in events :: RowOk(events[i])
  }

  lemma RecordedRowIsOk(mode: Mode, endpoint: string, ip: Option<string>, installation: Option<string>, s: Option<Secrets>, now: Time)
    ensures RowOk(Recorded(mode, endpoint, ip, installation, s, now))
  {
  }

  // ---------------------------------------------------------------- counting

  datatype Query = Query(endpoint: string, ip: string, secrets: Secrets, windowStart: Time, now: Time)

  predicate InWindow(e: Event, q: Query) {
    e.endpoint == q.endpoint && e.at >= q.windowStart
  }

  /** Same address, however it was spelled. */
  predicate SameAddress(e: Event, q: Query) {
    e.origin.Some? && IpCanonical.Normalize(e.origin.value).Some?
    && IpCanonical.Normalize(e.origin.value) == IpCanonical.Normalize(q.ip)
  }

  predicate DigestMatches(e: Event, q: Query) {
    && e.digest.Some?
    && IpCanonical.Normalize(q.ip).Some?
    && IsCandidate(q.secrets, IpCanonical.Normalize(q.ip).value, IpScope, q.windowStart, q.now, e.digest.value)
  }

  /** resolveRequestEventIpMatch for a query that has a usable match. */
  predicate Matches(mode: Mode, e: Event, q: Query) {
    DigestMatches(e, q) || (mode.Dual? && e.ip == Some(q.ip))
  }

  function Counted(mode: Mode, events: Events, q: Query): set<EventId> {
    set i | i in events && InWindow(events[i], q) && Matches(mode, events[i], q)
  }

  /** The reference: the requests of the same address in the window. */
  function PlainlyCounted(events: Events, q: Query): set<EventId> {
    set i | i in events && InWindow(events[i], q) && SameAddress(events[i], q)
  }

  /** An event the query can recognise: digested under a key it knows, on no later day than now. */
  predicate Recognisable(e: Event, q: Query) {
    e.digest.Some? && Knows(q.secrets, e.digest.value.key) && Day(e.at) <= Day(q.now)
  }

  lemma DigestMatchesExactly(e: Event, q: Query)
    requires RowOk(e) && InWindow(e, q)
    ensures DigestMatches(e, q) <==> SameAddress(e, q) && Recognisable(e, q)
  {
  }

  /** A query accepts exactly the recognisable rows of its address, or in dual mode those of its text. */
  lemma MatchesExactly(mode: Mode, e: Event, q: Query)
    requires RowOk(e) && InWindow(e, q) && IpCanonical.Normalize(q.ip).Some?
    ensures Matches(mode, e, q) <==> SameAddress(e, q) && (Recognisable(e, q) || (mode.Dual? && e.ip == Some(q.ip)))
  {
    DigestMatchesExactly(e, q);
  }

  /**
   Over any window, across midnights and a key rotation, counting by digests is counting by address
   exactly when every request of that address in the window is recognisable.
   */
  lemma KeyedCountsLikePlain(events: Events, q: Query)
    requires EventsOk(events)
    ensures Counted(Keyed, events, q) == PlainlyCounted(events, q) <==>
            forall i :: i in PlainlyCounted(events, q) ==> Recognisable(events[i], q)
    ensures Counted(Keyed, events, q) <= PlainlyCounted(events, q)
  {
    forall i | i in events && InWindow(events[i], q)
      ensures i in Counted(Keyed, events, q) <==> i in PlainlyCounted(events, q) && Recognisable(events[i], q)
    {
      DigestMatchesExactly(events[i], q);
    }
  }

  /**
   Rotating the key, with the old current key kept as previous, leaves a count as it was exactly when
   no request it could count is under the key that is dropped, or already under the new one.
   */
  lemma RotationKeepsCounts(events: Events, q: Query, next: Key)
    requires EventsOk(events)
    ensures Counted(Keyed, events, q.(secrets := Secrets(next, Some(q.secrets.current)))) == Counted(Keyed, events, q) <==>
            forall i :: i in PlainlyCounted(events, q) && events[i].digest.Some? && Day(events[i].at) <= Day(q.now) ==>
              var k := events[i].digest.value.key;
              k == q.secrets.current || (k == next <==> q.secrets.previous == Some(k))
  {
    var r := q.(secrets := Secrets(next, Some(q.secrets.current)));
    forall i | i in events && InWindow(events[i], q)
      ensures i in Counted(Keyed, events, q) <==> i in PlainlyCounted(events, q) && Recognisable(events[i], q)
      ensures i in Counted(Keyed, events, r) <==> i in PlainlyCounted(events, q) && Recognisable(events[i], r)
    {
      DigestMatchesExactly(events[i], q);
      DigestMatchesExactly(events[i], r);
    }
  }

  // ---------------------------------------------------------------- the migration

  predicate NeedsDigest(e: Event, windowStart: Time) {
    e.ip.Some? && e.digest.None? && e.at >= windowStart
  }

  /** The backfill of one row. */
  function Backfilled(e: Event, s: Secrets): Event {
    if e.ip.None? || e.digest.Some? then e
    else
      var digest := WriteDigest(s, e.ip.value, e.at);
      if digest.Some? then e.(digest := digest)
      else if e.installation.None? then e.(unparseable := true)
      else e
  }

  predicate Pending(e: Event, windowStart: Time) {
    NeedsDigest(e, windowStart) && !e.unparseable
  }

  function PendingRows(events: Events, windowStart: Time): set<EventId> {
    set i | i in events && Pending(events[i], windowStart)
  }

  /** The rows the finalisation deletes, and what it clears in the others. */
  predicate Purged(e: Event) {
    e.digest.None? && e.installation.None? && e.ip.Some?
  }

  /** The three statements of the finalisation on the request table. */
  function Purge(events: Events): Events {
    map i | i in events && !Purged(events[i]) :: events[i]
  }

  function WithoutAddresses(events: Events): Events {
    map i | i in events :: events[i].(ip := None)
  }

  function WithoutSentinels(events: Events): Events {
    map i | i in events :: if events[i].digest.None? then events[i].(unparseable := false) else events[i]
  }

  /** What the last check before the switch looks for among request rows. */
  predicate Tainted(e: Event) {
    e.ip.Some? || (e.digest.None? && e.unparseable)
  }

  function ByInstallation(events: Events, installation: string, endpoint: string, windowStart: Time): set<EventId> {
    set i | i in events && events[i].installation == Some(installation) && events[i].endpoint == endpoint && events[i].at >= windowStart
  }

  /** The listed rows are backfilled and no other row is touched. */
  ghost predicate BackfilledBy(before: Events, after: Events, listed: seq<EventId>, s: Secrets) {
    && before.Keys == after.Keys
    && forall i | i in before :: after[i] == if i in listed then Backfilled(before[i], s) else before[i]
  }

  ghost function DigestsWritten(events: Events, listed: seq<EventId>, s: Secrets): nat {
    if listed == [] then 0
    else
      var i := listed[|listed| - 1];
      DigestsWritten(events, listed[..|listed| - 1], s) + if i in events && Backfilled(events[i], s).digest.Some? then 1 else 0
  }

  lemma NotYetBackfilled(before: Events, mid: Events, listed: seq<EventId>, n: nat, s: Secrets)
    requires n < |listed| && listed[n] in before && BackfilledBy(before, mid, listed[..n], s)
    requires forall i, j :: 0 <= i < j < |listed| ==> listed[i] != listed[j]
    ensures listed[n] !in listed[..n] && listed[n] in mid && mid[listed[n]] == before[listed[n]]
  {
  }

  lemma BackfilledOneMore(before: Events, mid: Events, after: Events, listed: seq<EventId>, n: nat, s: Secrets)
    requires n < |listed| && listed[n] in before && listed[n] !in listed[..n]
    requires BackfilledBy(before, mid, listed[..n], s) && after == mid[listed[n] := Backfilled(mid[listed[n]], s)]
    ensures BackfilledBy(before, after, listed[..n + 1], s)
    ensures DigestsWritten(before, listed[..n + 1], s)
         == DigestsWritten(before, listed[..n], s) + if Backfilled(before[listed[n]], s).digest.Some? then 1 else 0
  {
    assert listed[..n + 1] == listed[..n] + [listed[n]];
    assert listed[..n + 1][..n] == listed[..n];
  }

  /** A backfilled table is truthful, and of its listed rows only unreadable addresses stay pending. */
  lemma BackfillLeavesOnlyUnreadable(before: Events, after: Events, listed: seq<EventId>, s: Secrets, windowStart: Time, i: EventId)
    requires EventsOk(before) && BackfilledBy(before, after, listed, s)
    ensures EventsOk(after)
    ensures i in PendingRows(after, windowStart) && i in listed ==>
              before[i].installation.Some? && before[i].ip.Some? && IpCanonical.Normalize(before[i].ip.value).None?
  {
  }

  // ---------------------------------------------------------------- what a row and a count come to

  /** A recorded request: its address in plain text only in dual mode, and its digest under the current key and the UTC day. */
  lemma RequestIsRecorded(mode: Mode, endpoint: string, ip: Option<string>, installation: Option<string>, s: Option<Secrets>, now: Time)
    ensures var e := Recorded(mode, endpoint, ip, installation, s, now);
            && e.endpoint == endpoint && e.origin == ip && e.installation == installation && e.at == now && !e.unparseable
            && e.ip == (if mode == Dual then ip else None)
            && e.digest == if ip.Some? && s.Some? && IpCanonical.Normalize(ip.value).Some?
                           then Some(Hmac(s.value.current, now / 86_400_000, IpScope, IpCanonical.Normalize(ip.value).value)) else None
  {
  }

  /** The digest of an address under one of the two keys and one of the days from the window's start to now. */
  predicate DigestOfWindow(d: Digest, q: Query, normal: string) {
    && (d.key == q.secrets.current || (q.secrets.previous.Some? && d.key == q.secrets.previous.value))
    && q.windowStart / 86_400_000 <= d.epoch <= q.now / 86_400_000
    && d.scope == IpScope && d.subject == normal
  }

  /** What a count takes in: rows of the endpoint and the window, by such a digest, or in dual mode by the same text. */
  lemma CountTakesIn(mode: Mode, events: Events, q: Query, normal: string, i: EventId)
    requires IpCanonical.Normalize(q.ip) == Some(normal)
    ensures i in Counted(mode, events, q) <==>
              && i in events && events[i].endpoint == q.endpoint && events[i].at >= q.windowStart
              && ((events[i].digest.Some? && DigestOfWindow(events[i].digest.value, q, normal)) || (mode == Dual && events[i].ip == Some(q.ip)))
  {
  }

  /** An address that cannot be read is counted by its text alone, and only in dual mode. */
  lemma UnreadableCountsByText(mode: Mode, events: Events, q: Query, i: EventId)
    requires IpCanonical.Normalize(q.ip) == None
    ensures i in Counted(mode, events, q) <==>
              mode == Dual && i in events && events[i].endpoint == q.endpoint && events[i].at >= q.windowStart && events[i].ip == Some(q.ip)
  {
  }

  /** A readable address gets the digest of its own day; one that is not is marked, unless an installation speaks for its row. */
  lemma RowIsBackfilled(e: Event, s: Secrets)
    ensures e.ip.Some? && e.digest.None? && IpCanonical.Normalize(e.ip.value).Some? ==>
              Backfilled(e, s) == e.(digest := Some(Hmac(s.current, e.at / 86_400_000, IpScope, IpCanonical.Normalize(e.ip.value).value)))
    ensures e.ip.Some? && e.digest.None? && IpCanonical.Normalize(e.ip.value).None? ==>
              Backfilled(e, s) == if e.installation.None? then e.(unparseable := true) else e
    ensures e.ip.None? || e.digest.Some? ==> Backfilled(e, s) == e
  {
  }

  /** A row is pending while it has an address, no digest and no mark, and lies in the window. */
  lemma RowIsPending(events: Events, windowStart: Time, i: EventId)
    ensures i in PendingRows(events, windowStart) <==>
              i in events && events[i].ip.Some? && events[i].digest.None? && !events[i].unparseable && events[i].at >= windowStart
  {
  }

  /** The three statements: rows that counted by their address alone go, and the others lose address and mark. */
  lemma FinalizationLeaves(events: Events, i: EventId)
    ensures var after := WithoutSentinels(WithoutAddresses(Purge(events)));
            && (i in after <==> i in events && (events[i].digest.Some? || events[i].installation.Some? || events[i].ip.None?))
            && (i in after ==> after[i] == events[i].(ip := None, unparseable := events[i].unparseable && events[i].digest.Some?))
  {
  }

  predicate Readable(e: Event) { e.ip.Some? && IpCanonical.Normalize(e.ip.value).Some? }

  function ReadableAmong(events: Events, listed: seq<EventId>): set<EventId> {
    set i | i in listed && i in events && Readable(events[i])
  }

  lemma OneMoreListed(events: Events, prefix: seq<EventId>, x: EventId)
    requires x !in prefix && x in events
    ensures |ReadableAmong(events, prefix + [x])| == |ReadableAmong(events, prefix)| + (if Readable(events[x]) then 1 else 0)
  {
    assert ReadableAmong(events, prefix + [x]) == ReadableAmong(events, prefix) + (if Readable(events[x]) then {x} else {});
  }

  /** The backfill counts the rows of its list whose address it could read. */
  lemma {:induction false} DigestsAreCounted(events: Events, listed: seq<EventId>, s: Secrets)
    requires forall i | i in listed :: i in events && events[i].ip.Some? && events[i].digest.None?
    requires forall i, j :: 0 <= i < j < |listed| ==> listed[i] != listed[j]
    ensures DigestsWritten(events, listed, s) == |ReadableAmong(events, listed)|
    decreases |listed|
  {
    if listed == [] {
      assert ReadableAmong(events, listed) == {};
    } else {
      var n := |listed| - 1;
      assert listed == listed[..n] + [listed[n]] && listed[n] in listed;
      DigestsAreCounted(events, listed[..n], s);
      OneMoreListed(events, listed[..n], listed[n]);
      RowIsBackfilled(events[listed[n]], s);
    }
  }

  // ---------------------------------------------------------------- the table, updated in place

  class RequestEvents {
    var events: Events

    method RecordRequestEvent(id: EventId, mode: Mode, endpoint: string, ip: Option<string>, installation: Option<string>,
                              s: Option<Secrets>, now: Time)
      requires id !in events
      modifies this
      ensures events == if ip.None? && installation.None? then old(events)
                        else old(events)[id := Recorded(mode, endpoint, ip, installation, s, now)]
      ensures old(EventsOk(events)) ==> EventsOk(events)
    {
      if ip.None? && installation.None? { return; }
      RecordedRowIsOk(mode, endpoint, ip, installation, s, now);
      var digest := None;
      if ip.Some? && s.Some? { digest := WriteDigest(s.value, ip.value, now); }
      var row := Event(endpoint, ip, ip, digest, false, installation, now);
      if mode.Keyed? { row := row.(ip := None); }
      events := events[id := row];
    }

    /** One row of the backfill; `wrote` says whether the row got its digest. */
    method BackfillRow(i: EventId, s: Secrets) returns (wrote: bool)
      requires i in events && events[i].ip.Some? && events[i].digest.None?
      modifies this
      ensures events == old(events)[i := Backfilled(old(events)[i], s)]
      ensures wrote <==> Backfilled(old(events)[i], s).digest.Some?
    {
      var identity := WriteDigest(s, events[i].ip.value, events[i].at);
      if identity.None? {
        var row := events[i];
        if row.installation.None? { row := row.(unparseable := true); }
        events := events[i := row];
        return false;
      }
      events := events[i := events[i].(digest := identity)];
      return true;
    }

    /** The backfill loop over the rows it listed, and how many digests it wrote. */
    method RunBackfill(listed: seq<EventId>, s: Secrets) returns (backfilled: nat)
      requires forall i :: i in listed ==> i in events && events[i].ip.Some? && events[i].digest.None?
      requires forall i, j :: 0 <= i < j < |listed| ==> listed[i] != listed[j]
      modifies this
      ensures BackfilledBy(old(events), events, listed, s)
      ensures backfilled == DigestsWritten(old(events), listed, s)
    {
      backfilled := 0;
      for n := 0 to |listed|
        invariant BackfilledBy(old(events), events, listed[..n], s)
        invariant backfilled == DigestsWritten(old(events), listed[..n], s)
      {
        ghost var mid := events;
        NotYetBackfilled(old(events), mid, listed, n, s);
        var wrote := BackfillRow(listed[n], s);
        BackfilledOneMore(old(events), mid, events, listed, n, s);
        if wrote { backfilled := backfilled + 1; }
      }
      assert listed[..|listed|] == listed;
    }

    /** countPendingLegacyRequestEvents, whose failure reads as zero. */
    method CountPendingLegacyRequestEvents(windowStart: Time, throws: bool) returns (count: nat)
      ensures count == 0 <==> throws || PendingRows(events, windowStart) == {}
    {
      if throws { return 0; }
      var pending := set i | i in events && events[i].ip.Some? && events[i].digest.None? && !events[i].unparseable
                             && events[i].at >= windowStart;
      assert pending == PendingRows(events, windowStart);
      return |pending|;
    }

    method PurgeRows()
      modifies this
      ensures events == Purge(old(events))
    {
      events := map i | i in events && !(events[i].digest.None? && events[i].installation.None? && events[i].ip.Some?) :: events[i];
    }

    method ClearAddresses()
      modifies this
      ensures events == WithoutAddresses(old(events))
      ensures forall i | i in events :: events[i].ip.None?
    {
      events := map i | i in events :: if events[i].ip.Some? then events[i].(ip := None) else events[i];
    }

    method ClearSentinels()
      modifies this
      ensures events == WithoutSentinels(old(events))
    {
      events := map i | i in events ::
        if events[i].digest.None? && events[i].unparseable then events[i].(unparseable := false) else events[i];
    }

    /**
     finalizeNetworkIdentityMigration without interleaving: `failing` statements ran before one threw,
     if any, and `othersClean` stands for the checks of the other tables; `mode` is switched last.
     */
    method FinalizeMigration(mode: Mode, failing: Option<nat>, othersClean: bool) returns (after: Mode, finalized: bool)
      modifies this
      ensures failing == Some(0) ==> events == old(events)
      ensures failing == Some(1) ==> events == Purge(old(events))
      ensures failing == Some(2) ==> events == WithoutAddresses(Purge(old(events)))
      ensures failing.None? || failing.value > 2 ==> events == WithoutSentinels(WithoutAddresses(Purge(old(events))))
      ensures finalized <==> failing.None? && othersClean
      ensures after == if finalized then Keyed else mode
    {
      if failing == Some(0) { return mode, false; }
      PurgeRows();
      if failing == Some(1) { return mode, false; }
      ClearAddresses();
      if failing == Some(2) { return mode, false; }
      ClearSentinels();
      if failing.Some? || !othersClean || exists i :: i in events && Tainted(events[i]) { return mode, false; }
      return Keyed, true;
    }
  }
}
