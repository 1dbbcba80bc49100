/** The incident state machine over signal histories, with the row its observer stores. */
module IncidentEngine {
  import opened Outcomes

  datatype Status = Detected | Active | Recovering | Resolved | Suspended

  datatype Severity = Unknown | Info | Warning | High | Critical

  function Order(s: Severity): nat {
    match s
    case Unknown => 0
    case Info => 1
    case Warning => 2
    case High => 3
    case Critical => 4
  }

  /** The engine's transition table. */
  predicate Follows(s: Status, t: Status) {
    match s
    case Detected => t in {Detected, Active, Recovering, Resolved, Suspended}
    case Active => t in {Active, Recovering, Suspended}
    case Recovering => t in {Recovering, Active, Resolved, Suspended}
    case Suspended => t in {Suspended, Detected, Active}
    case Resolved => t in {Resolved, Detected}
  }

  /** The database's own table, consulted again when a transition is stored. */
  predicate StoreFollows(s: Option<Status>, t: Status) {
    match s
    case None => t == Detected
    case Some(f) =>
      || f == t
      || (f == Detected && t in {Active, Recovering, Resolved, Suspended})
      || (f == Active && t in {Recovering, Suspended})
      || (f == Recovering && t in {Active, Resolved, Suspended})
      || (f == Suspended && t in {Detected, Active})
      || (f == Resolved && t == Detected)
  }

  /** The two tables must stay equivalent, as the database migration demands. */
  lemma TablesAgree(s: Status, t: Status)
    ensures StoreFollows(Some(s), t) <==> Follows(s, t)
  {
  }

  /** `fenced`: the writer holds the cluster's epoch, with an unexpired lease, when its transition is to be stored. */
  datatype Signal = Signal(
    fenced: bool, receivedAt: int, present: bool, configured: bool, isFresh: bool, complete: bool, severity: Option<Severity>,
    repeatCount: nat, watermark: Option<int>, writerEpoch: Option<int>, currentEpoch: Option<int>)

  datatype Policy = Policy(activationCount: nat, resolveStableMs: nat)

  function ActivationCount(p: Policy): nat { if p.activationCount == 0 then 2 else p.activationCount }
  function StableMs(p: Policy): nat { if p.resolveStableMs == 0 then 30000 else p.resolveStableMs }

  datatype Incident = Incident(
    status: Status, severity: Severity, firstDetectedAt: int, lastObservedAt: int,
    recoveringAt: Option<int>, suspendedAt: Option<int>, resolvedAt: Option<int>)

  datatype Event =
    | IncidentDetected | IncidentActivated | SeverityChanged | IncidentRecovering | IncidentResolved
    | IncidentSuspended | IncidentResumed

  datatype Next = Next(incident: Incident, event: Option<Event>)

  /** The extra demands of a resolution, in the order they are checked. */
  function AssertResolvable(c: Incident, s: Signal, stableFor: int, required: nat): Result<bool, string> {
    if !Follows(c.status, Resolved) then Failure("invalid incident transition")
    else if !s.complete then Failure("resolved requires complete reconciliation")
    else if !s.isFresh then Failure("resolved requires fresh authority")
    else if s.watermark.None? || s.watermark.value <= c.lastObservedAt then Failure("resolved requires a newer fresh-authority watermark")
    else if stableFor < required then Failure("resolution hysteresis is not satisfied")
    else if s.writerEpoch.Some? && s.currentEpoch.Some? && s.writerEpoch != s.currentEpoch then Failure("stale incident writer fencing epoch")
    else Success(true)
  }

  function WhenPresent(c: Incident, s: Signal, p: Policy): Next {
    var repeated := (if s.repeatCount == 0 then 1 else s.repeatCount) >= ActivationCount(p);
    var status :=
      match c.status
      case Resolved => Detected
      case Suspended => if repeated then Active else Detected
      case Detected => if repeated then Active else Detected
      case Recovering => Active
      case Active => Active;
    var severity := if s.severity.Some? && Order(s.severity.value) > Order(c.severity) then s.severity.value else c.severity;
    Next(c.(status := status, severity := severity, lastObservedAt := s.receivedAt),
         if c.status == Resolved then Some(IncidentDetected)
         else if severity != c.severity then Some(SeverityChanged)
         else if c.status == Suspended then Some(IncidentResumed)
         else if status == Active && c.status != Active then Some(IncidentActivated)
         else None)
  }

  function DeriveIncidentTransition(current: Option<Incident>, s: Signal, p: Policy): Result<Option<Next>, string> {
    if current.None? then
      if !s.present then Success(None)
      else
        Success(Some(Next(Incident(Detected, if s.severity.Some? then s.severity.value else Unknown,
                                   s.receivedAt, s.receivedAt, None, None, None), Some(IncidentDetected))))
    else
      var c := current.value;
      if !s.configured then Success(None)
      else if !s.isFresh || !s.complete then
        if c.status in {Resolved, Suspended} then Success(None)
        else Success(Some(Next(c.(status := Suspended, suspendedAt := Some(s.receivedAt)), Some(IncidentSuspended))))
      else if s.present then Success(Some(WhenPresent(c, s, p)))
      else if c.status in {Active, Detected} then
        Success(Some(Next(c.(status := Recovering, recoveringAt := Some(s.receivedAt)), Some(IncidentRecovering))))
      else if c.status == Recovering then
        var stableFor := s.receivedAt - (if c.recoveringAt.Some? then c.recoveringAt.value else c.lastObservedAt);
        if stableFor < StableMs(p) then Success(Some(Next(c, None)))
        else
          match AssertResolvable(c, s, stableFor, StableMs(p))
          case Failure(e) => Failure(e)
          case Success(_) =>
            Success(Some(Next(c.(status := Resolved, resolvedAt := Some(s.receivedAt), lastObservedAt := s.receivedAt), Some(IncidentResolved))))
      else Success(None)
  }

  // ----- The stored row -----

  /** The incident row with the number of its last transition, and the outbox of all of them. */
  datatype Stored = Stored(row: Option<Incident>, sequence: nat, outbox: seq<Emitted>)
  datatype Emitted = Emitted(sequence: nat, event: Event, status: Status)

  /** The storing function: it dates the row itself and refuses a stale writer and what its own table or watermark forbids. */
  function TransitionIncident(st: Stored, n: Incident, event: Event, s: Signal): Stored {
    var from := if st.row.Some? then Some(st.row.value.status) else None;
    if !s.fenced then st
    else if st.row.Some? && !StoreFollows(from, n.status) then st
    else if n.status == Resolved && (s.watermark.None? || (st.row.Some? && s.watermark.value <= st.row.value.lastObservedAt)) then st
    else
      var at := s.receivedAt;
      var row := Incident(
        n.status, n.severity,
        if st.row.Some? then st.row.value.firstDetectedAt else at,
        at,
        if n.status == Recovering then Some(at) else if st.row.Some? then st.row.value.recoveringAt else None,
        if n.status == Suspended then Some(at) else None,
        if n.status == Resolved then Some(at) else None);
      Stored(Some(row), st.sequence + 1, st.outbox + [Emitted(st.sequence + 1, event, n.status)])
  }

  /** One signal of a correlation pass: a derivation without an event stores nothing. */
  function Observe(p: Policy, st: Stored, s: Signal): Stored {
    match DeriveIncidentTransition(st.row, s, p)
    case Success(Some(Next(n, Some(event)))) => TransitionIncident(st, n, event, s)
    case _ => st
  }

  function Run(p: Policy, h: seq<Signal>): Stored {
    if h == [] then Stored(None, 0, []) else Observe(p, Run(p, h[..|h| - 1]), h[|h| - 1])
  }

  // ----- Properties -----

  /** Every derived status obeys the table, and a new incident starts detected. */
  lemma DerivedObeysTable(current: Option<Incident>, s: Signal, p: Policy)
    requires var d := DeriveIncidentTransition(current, s, p); d.Success? && d.value.Some?
    ensures var n := DeriveIncidentTransition(current, s, p).value.value;
      && (current.None? ==> n.incident.status == Detected)
      && (current.Some? ==> Follows(current.value.status, n.incident.status))
  {
  }

  /** A step without an event leaves status and severity as they were, so not storing it loses neither. */
  lemma SilentStepChangesNothing(c: Incident, s: Signal, p: Policy)
    requires var d := DeriveIncidentTransition(Some(c), s, p); d.Success? && d.value.Some? && d.value.value.event.None?
    ensures var n := DeriveIncidentTransition(Some(c), s, p).value.value.incident;
      n.status == c.status && n.severity == c.severity
  {
  }

  /** The store refuses what the engine derives exactly when the writer lost its epoch: neither table nor watermark ever does. */
  lemma StoreRefusesOnlyStaleWriters(p: Policy, st: Stored, s: Signal)
    requires var d := DeriveIncidentTransition(st.row, s, p); d.Success? && d.value.Some? && d.value.value.event.Some?
    ensures Observe(p, st, s) == st <==> !s.fenced
    ensures s.fenced ==>
      var n := DeriveIncidentTransition(st.row, s, p).value.value.incident;
      && Observe(p, st, s).sequence == st.sequence + 1
      && Observe(p, st, s).row.Some? && Observe(p, st, s).row.value.status == n.status && Observe(p, st, s).row.value.severity == n.severity
  {
    DerivedObeysTable(st.row, s, p);
    if st.row.Some? {
      TablesAgree(st.row.value.status, DeriveIncidentTransition(st.row, s, p).value.value.incident.status);
    }
  }

  /** The signals that reached the store. */
  function Fenced(h: seq<Signal>): seq<Signal> {
    if h == [] then []
    else Fenced(h[..|h| - 1]) + if h[|h| - 1].fenced then [h[|h| - 1]] else []
  }

  /** A stale writer's signals leave no trace: the incident is what the fenced signals alone make of it. */
  lemma {:induction false} StaleWritersLeaveNoTrace(p: Policy, h: seq<Signal>)
    ensures Run(p, h) == Run(p, Fenced(h))
  {
    if h != [] {
      var before, s := h[..|h| - 1], h[|h| - 1];
      StaleWritersLeaveNoTrace(p, before);
      if s.fenced {
        assert Fenced(h)[..|Fenced(h)| - 1] == Fenced(before);
      } else {
        assert Fenced(h) == Fenced(before);
      }
    }
  }

  /** How long an incident must have been quiet: half a minute, unless the policy says otherwise. */
  function QuietTime(p: Policy): nat { if p.resolveStableMs > 0 then p.resolveStableMs else 30_000 }

  /** A usable signal that says the cause is gone, or one whose source is not configured and is ignored. */
  predicate Quiet(s: Signal) { !s.configured || (s.isFresh && s.complete && !s.present) }

  predicate Reappears(s: Signal) { s.configured && s.isFresh && s.complete && s.present }

  /** Recovery began with signal `e` and nothing but quiet signals reached the store since. */
  ghost predicate RecoveringSince(p: Policy, h: seq<Signal>, e: nat) {
    && e < |h|
    && Run(p, h).row.Some?
    && Run(p, h).row.value.recoveringAt == Some(h[e].receivedAt)
    && Run(p, h).row.value.lastObservedAt == h[e].receivedAt
    && h[e].configured && h[e].fenced
    && (forall k | e <= k < |h| && h[k].fenced :: Quiet(h[k]))
  }

  ghost predicate IsRecovering(p: Policy, h: seq<Signal>) {
    Run(p, h).row.Some? && Run(p, h).row.value.status == Recovering
  }

  lemma {:induction false} RecoveryBegan(p: Policy, h: seq<Signal>) returns (e: nat)
    requires IsRecovering(p, h)
    ensures RecoveringSince(p, h, e)
  {
    var before, s := h[..|h| - 1], h[|h| - 1];
    if IsRecovering(p, before) {
      e := RecoveryBegan(p, before);
      assert s.fenced ==> Quiet(s);
      assert forall k | e <= k < |before| :: h[k] == before[k];
    } else {
      e := |h| - 1;
    }
  }

  ghost predicate Resolves(p: Policy, h: seq<Signal>, s: Signal) {
    && Run(p, h + [s]).row.Some? && Run(p, h + [s]).row.value.status == Resolved
    && (Run(p, h).row.None? || Run(p, h).row.value.status != Resolved)
  }

  /**
   * An incident resolves at a signal only after recovery began at some earlier usable signal at least
   * the stable period before, with every signal that reached the store from there on quiet, and with an
   * authority watermark newer than that beginning.
   */
  lemma ResolutionIsEarned(p: Policy, h: seq<Signal>, s: Signal) returns (e: nat)
    requires Resolves(p, h, s)
    ensures e < |h| && h[e].fenced && h[e].configured && s.fenced && s.configured && Quiet(s)
    ensures forall k | e <= k < |h| && h[k].fenced :: Quiet(h[k])
    ensures s.receivedAt - h[e].receivedAt >= QuietTime(p)
    ensures s.watermark.Some? && s.watermark.value > h[e].receivedAt
  {
    assert (h + [s])[..|h|] == h;
    e := RecoveryBegan(p, h);
  }

  predicate EpochsAgree(s: Signal) { s.writerEpoch.None? || s.currentEpoch.None? || s.writerEpoch == s.currentEpoch }

  /** What lets a signal resolve an incident whose recovery began at `since`. */
  predicate Resolving(p: Policy, s: Signal, since: int) {
    && s.fenced && s.configured && s.isFresh && s.complete && !s.present
    && s.receivedAt - since >= QuietTime(p) && s.watermark.Some? && s.watermark.value > since && EpochsAgree(s)
  }

  ghost predicate ResolvingSince(p: Policy, h: seq<Signal>, s: Signal, e: nat) {
    IsRecovering(p, h) && RecoveringSince(p, h, e) && Resolving(p, s, h[e].receivedAt)
  }

  /**
   * Exactly when a signal resolves: the incident is recovering, and the signal is usable, absent and stored by a
   * current writer, a stable period after recovery began and under a newer watermark.
   */
  lemma ResolvesIff(p: Policy, h: seq<Signal>, s: Signal)
    ensures Resolves(p, h, s) <==> exists e: nat :: ResolvingSince(p, h, s, e)
  {
    RunSnoc(p, h, s);
    if IsRecovering(p, h) {
      var e := RecoveryBegan(p, h);
      assert Resolves(p, h, s) <==> ResolvingSince(p, h, s, e);
      forall d: nat | RecoveringSince(p, h, d) ensures h[d].receivedAt == h[e].receivedAt { }
    }
  }

  ghost predicate InOrder(h: seq<Signal>) {
    forall i, j | 0 <= i < j < |h| :: h[i].receivedAt <= h[j].receivedAt
  }

  /** With signals in order of time: throughout the stable period before a resolution all that reached the store was quiet. */
  lemma QuietBeforeResolution(p: Policy, h: seq<Signal>, s: Signal, k: nat)
    requires Resolves(p, h, s) && InOrder(h) && k < |h| && h[k].receivedAt > s.receivedAt - QuietTime(p)
    ensures !h[k].fenced || Quiet(h[k])
  {
    var e := ResolutionIsEarned(p, h, s);
  }

  function Seen(at: int, present: bool, fenced: bool, watermark: int): Signal {
    Signal(fenced, at, present, true, true, true, None, 1, Some(watermark), None, None)
  }

  /**
   * What a refusal does: the cause is seen again ten seconds into recovery by a writer that lost its epoch, and
   * the incident resolves twenty seconds later all the same.
   */
  lemma RefusedSightingIsForgotten()
    ensures var p := Policy(1, 30000);
      var h := [Seen(0, true, true, 0), Seen(1000, false, true, 0), Seen(11000, true, false, 0)];
      var s := Seen(31000, false, true, 2000);
      Resolves(p, h, s) && !Quiet(h[2]) && h[2].receivedAt > s.receivedAt - QuietTime(p)
  {
    var p := Policy(1, 30000);
    var a, b, c, s := Seen(0, true, true, 0), Seen(1000, false, true, 0), Seen(11000, true, false, 0), Seen(31000, false, true, 2000);
    RunThree(p, a, b, c);
    RunSnoc(p, [a, b, c], s);
    RecoversAtOnce(p);
    ResolvesAfter(p, Observe(p, Observe(p, Stored(None, 0, []), a), b));
  }

  lemma RunSnoc(p: Policy, h: seq<Signal>, s: Signal)
    ensures Run(p, h + [s]) == Observe(p, Run(p, h), s)
  {
    assert (h + [s])[..|h|] == h;
  }

  lemma RunThree(p: Policy, a: Signal, b: Signal, c: Signal)
    ensures Run(p, [a, b, c]) == Observe(p, Observe(p, Observe(p, Stored(None, 0, []), a), b), c)
  {
    RunSnoc(p, [], a);
    RunSnoc(p, [a], b);
    RunSnoc(p, [a, b], c);
    assert [] + [a] == [a] && [a] + [b] == [a, b] && [a, b] + [c] == [a, b, c];
  }

  lemma RecoversAtOnce(p: Policy)
    ensures var st := Observe(p, Observe(p, Stored(None, 0, []), Seen(0, true, true, 0)), Seen(1000, false, true, 0));
      st.row.Some? && st.row.value.status == Recovering && st.row.value.recoveringAt == Some(1000) && st.row.value.lastObservedAt == 1000
  {
  }

  lemma ResolvesAfter(p: Policy, st: Stored)
    requires p == Policy(1, 30000) && st.row.Some? && st.row.value.status == Recovering
    requires st.row.value.recoveringAt == Some(1000) && st.row.value.lastObservedAt == 1000
    ensures var u := Observe(p, st, Seen(11000, true, false, 0)); var t := Observe(p, u, Seen(31000, false, true, 2000));
      u == st && t.row.Some? && t.row.value.status == Resolved
  {
  }

  ghost predicate IsSuspended(p: Policy, h: seq<Signal>) {
    Run(p, h).row.Some? && Run(p, h).row.value.status == Suspended
  }

  /** A suspended incident stays exactly as it is until a usable sighting of the cause reaches the store. */
  lemma {:induction false} SuspendedUntilReappears(p: Policy, h: seq<Signal>, more: seq<Signal>)
    requires IsSuspended(p, h) && forall k | 0 <= k < |more| && more[k].fenced :: !Reappears(more[k])
    ensures Run(p, h + more) == Run(p, h)
  {
    if more == [] {
      assert h + more == h;
    } else {
      SuspendedUntilReappears(p, h, more[..|more| - 1]);
      assert (h + more)[..|h + more| - 1] == h + more[..|more| - 1];
    }
  }

  /** The outbox numbers transitions 1, 2, 3, ... and each stored status change obeys the table. */
  lemma {:induction false} OutboxIsGapless(p: Policy, h: seq<Signal>)
    ensures var st := Run(p, h);
      && st.sequence == |st.outbox|
      && (st.row.None? <==> st.outbox == [])
      && (forall i | 0 <= i < |st.outbox| :: st.outbox[i].sequence == i + 1)
      && (st.outbox != [] ==> st.outbox[0].status == Detected && st.outbox[|st.outbox| - 1].status == st.row.value.status)
      && (forall i | 0 <= i < |st.outbox| - 1 :: Follows(st.outbox[i].status, st.outbox[i + 1].status))
  {
    if h != [] {
      OutboxIsGapless(p, h[..|h| - 1]);
      var st, s := Run(p, h[..|h| - 1]), h[|h| - 1];
      var d := DeriveIncidentTransition(st.row, s, p);
      if d.Success? && d.value.Some? {
        DerivedObeysTable(st.row, s, p);
      }
    }
  }

  /** Severity never falls, not even across a resolution, and rises at usable sightings that reach the store only. */
  lemma SeverityNeverFalls(p: Policy, h: seq<Signal>, s: Signal)
    requires Run(p, h).row.Some?
    ensures Run(p, h + [s]).row.Some?
    ensures var before, after := Run(p, h).row.value.severity, Run(p, h + [s]).row.value.severity;
      && Order(before) <= Order(after)
      && after == (if s.fenced && Reappears(s) then Worse(before, Reported(s)) else before)
  {
    assert (h + [s])[..|h|] == h;
  }

  // ----- What each signal makes of the stored incident -----

  function Worse(a: Severity, b: Severity): Severity {
    if a == Critical || b == Critical then Critical
    else if a == High || b == High then High
    else if a == Warning || b == Warning then Warning
    else if a == Info || b == Info then Info
    else Unknown
  }

  function Reported(s: Signal): Severity { if s.severity.None? then Unknown else s.severity.value }

  /** The sightings of this pass (one if it does not say) reach the activation count (two if the policy does not say). */
  predicate Activates(p: Policy, s: Signal) {
    (if s.repeatCount == 0 then 1 else s.repeatCount) >= (if p.activationCount == 0 then 2 else p.activationCount)
  }

  function SightedStatus(p: Policy, from: Status, s: Signal): Status {
    match from
    case Resolved => Detected
    case Detected | Suspended => if Activates(p, s) then Active else Detected
    case Active | Recovering => Active
  }

  /** In every history a usable sighting leaves the worse of the two severities, and its status by the activation count. */
  lemma SightingRaises(p: Policy, h: seq<Signal>, s: Signal)
    requires s.fenced && Reappears(s) && Run(p, h).row.Some?
    ensures var before, after := Run(p, h).row.value, Run(p, h + [s]).row;
      && after.Some? && after.value.severity == Worse(before.severity, Reported(s))
      && after.value.status == SightedStatus(p, before.status, s)
  {
    RunSnoc(p, h, s);
  }

  /** What a sighting is announced as: a reopening, else a worse severity, else a resumption, else an activation, else nothing. */
  function SightedEvent(p: Policy, c: Incident, s: Signal): Option<Event> {
    if c.status == Resolved then Some(IncidentDetected)
    else if Worse(c.severity, Reported(s)) != c.severity then Some(SeverityChanged)
    else if c.status == Suspended then Some(IncidentResumed)
    else if c.status == Recovering || (c.status == Detected && Activates(p, s)) then Some(IncidentActivated)
    else None
  }

  lemma SightedEventIsDerived(p: Policy, c: Incident, s: Signal)
    requires Reappears(s)
    ensures DeriveIncidentTransition(Some(c), s, p).Success? && DeriveIncidentTransition(Some(c), s, p).value.Some?
    ensures DeriveIncidentTransition(Some(c), s, p).value.value.event == SightedEvent(p, c, s)
  {
  }

  /** A sighting with nothing to announce is not even stored; any other is the next entry of the outbox. */
  lemma SightingIsAnnounced(p: Policy, h: seq<Signal>, s: Signal)
    requires s.fenced && Reappears(s) && Run(p, h).row.Some?
    ensures var before, after := Run(p, h), Run(p, h + [s]);
      match SightedEvent(p, before.row.value, s)
      case None => after == before
      case Some(event) =>
        && after.row.Some? && after.outbox == before.outbox + [Emitted(before.sequence + 1, event, after.row.value.status)]
        && after.row.value.lastObservedAt == s.receivedAt
  {
    RunSnoc(p, h, s);
    SightedEventIsDerived(p, Run(p, h).row.value, s);
    StoresAnnounced(p, Run(p, h), s);
  }

  lemma StoresAnnounced(p: Policy, st: Stored, s: Signal)
    requires s.fenced && st.row.Some?
    requires var d := DeriveIncidentTransition(st.row, s, p); d.Success? && d.value.Some?
    ensures match DeriveIncidentTransition(st.row, s, p).value.value.event
            case None => Observe(p, st, s) == st
            case Some(event) =>
              var after := Observe(p, st, s);
              && after.row.Some? && after.row.value.lastObservedAt == s.receivedAt
              && after.outbox == st.outbox + [Emitted(st.sequence + 1, event, after.row.value.status)]
  {
    var n := DeriveIncidentTransition(st.row, s, p).value.value;
    if n.event.Some? {
      StoreRefusesOnlyStaleWriters(p, st, s);
      assert Observe(p, st, s) == TransitionIncident(st, n.incident, n.event.value, s);
    }
  }

  /** Any other signal that reaches the store, except one that resolves. */
  function UnsightedStatus(from: Status, s: Signal): Status {
    if !s.configured then from
    else if !s.isFresh || !s.complete then (if from == Resolved then Resolved else Suspended)
    else if from == Active || from == Detected then Recovering
    else from
  }

  /** What an unsighted signal leaves of the stored incident. */
  predicate MovesUnsighted(st: Stored, after: Stored, s: Signal)
    requires st.row.Some?
  {
    var from := st.row.value.status;
    var status := UnsightedStatus(from, s);
    && after.row.Some? && after.row.value.status == status && after.row.value.severity == st.row.value.severity
    && (if status == from then after == st
        else after.outbox == st.outbox + [Emitted(st.sequence + 1, if status == Suspended then IncidentSuspended else IncidentRecovering, status)])
  }

  lemma LostSightMoves(p: Policy, st: Stored, s: Signal)
    requires st.row.Some? && s.fenced && !(s.configured && s.isFresh && s.complete)
    ensures MovesUnsighted(st, Observe(p, st, s), s)
  {
  }

  lemma NothingSeenMoves(p: Policy, st: Stored, s: Signal)
    requires st.row.Some? && s.fenced && s.configured && s.isFresh && s.complete && !s.present
    requires st.row.value.status == Resolved || !(Observe(p, st, s).row.Some? && Observe(p, st, s).row.value.status == Resolved)
    ensures MovesUnsighted(st, Observe(p, st, s), s)
  {
  }

  /** Lost sight suspends, sight of nothing begins recovery, and neither touches severity; what changes no status changes nothing. */
  lemma UnsightedMoves(p: Policy, h: seq<Signal>, s: Signal)
    requires s.fenced && !Reappears(s) && Run(p, h).row.Some? && !Resolves(p, h, s)
    ensures MovesUnsighted(Run(p, h), Run(p, h + [s]), s)
  {
    RunSnoc(p, h, s);
    if s.configured && s.isFresh && s.complete {
      NothingSeenMoves(p, Run(p, h), s);
    } else {
      LostSightMoves(p, Run(p, h), s);
    }
  }

  lemma {:induction false} UnseenIsUnopened(p: Policy, h: seq<Signal>)
    requires forall k | 0 <= k < |h| :: !(h[k].fenced && h[k].present)
    ensures Run(p, h) == Stored(None, 0, [])
  {
    if h != [] {
      UnseenIsUnopened(p, h[..|h| - 1]);
      OpensWhenSeen(p, h[|h| - 1]);
    }
  }

  lemma OpensWhenSeen(p: Policy, s: Signal)
    ensures Observe(p, Stored(None, 0, []), s) ==
      if s.fenced && s.present
      then Stored(Some(Incident(Detected, Reported(s), s.receivedAt, s.receivedAt, None, None, None)), 1, [Emitted(1, IncidentDetected, Detected)])
      else Stored(None, 0, [])
  {
  }

  /** An incident opens at the first sighting that reaches the store, whatever the other flags of that signal. */
  lemma OpensAtFirstSighting(p: Policy, h: seq<Signal>, s: Signal)
    requires forall k | 0 <= k < |h| :: !(h[k].fenced && h[k].present)
    ensures Run(p, h + [s]) ==
      if s.fenced && s.present
      then Stored(Some(Incident(Detected, Reported(s), s.receivedAt, s.receivedAt, None, None, None)), 1, [Emitted(1, IncidentDetected, Detected)])
      else Stored(None, 0, [])
  {
    UnseenIsUnopened(p, h);
    RunSnoc(p, h, s);
    OpensWhenSeen(p, s);
  }

  /** The dates a stored transition carries: the detection's never moves, the others follow the new status. */
  lemma DatesFollowStatus(p: Policy, h: seq<Signal>, s: Signal)
    requires Run(p, h).row.Some? && Run(p, h + [s]) != Run(p, h)
    ensures var before, after := Run(p, h).row.value, Run(p, h + [s]).row;
      && after.Some? && after.value.firstDetectedAt == before.firstDetectedAt && after.value.lastObservedAt == s.receivedAt
      && after.value.suspendedAt == (if after.value.status == Suspended then Some(s.receivedAt) else None)
      && after.value.resolvedAt == (if after.value.status == Resolved then Some(s.receivedAt) else None)
      && after.value.recoveringAt == (if after.value.status == Recovering then Some(s.receivedAt) else before.recoveringAt)
  {
    RunSnoc(p, h, s);
  }
}
