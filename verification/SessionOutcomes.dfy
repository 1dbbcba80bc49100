/** What each step of a session request leads to and why, and what it writes in one row. */
module SessionOutcomes {
  import opened Outcomes
  import opened BrowserSession

  // ----- Beginning -----

  /** A request starts on a row of the right status; an expired one is only marked. */
  lemma BeginsWith(s: State, id: RunId, key: Key, request: Request)
    requires id !in s.runs && key in s.rows
    ensures var t, r := Apply(s, Begin(id, key, request)), s.rows[key];
      && t.rows == s.rows
      && (id in t.runs <==> r.status == (if request == CompleteMfa then PendingMfa else Active))
      && (id in t.runs ==>
            && t.runs[id].key == key && t.runs[id].request == request && t.runs[id].readAt == s.clock
            && t.runs[id].base == r && t.runs[id].row == r && !t.runs[id].peer
            && t.runs[id].pc == (if r.idle <= s.clock || (request != CompleteMfa && r.absolute <= s.clock) then MarkExpired
                                 else if request == CompleteMfa then Act else Verify))
  {
  }

  function Earlier(a: int, b: int): (m: int)
    ensures (m == a || m == b) && m <= a && m <= b
  {
    if b <= a then b else a
  }

  /** A new row waits five minutes for a second factor, or idles twelve hours, but never beyond its own end. */
  lemma CreatesRow(s: State, key: Key, owner: string, access: Cipher, refresh: Cipher, family: Option<string>, aal2: bool, mfa: bool, duration: nat)
    requires key !in s.rows && refresh !in s.issued
    ensures var t := Apply(s, Create(key, owner, access, refresh, family, aal2, mfa, duration));
      var status, ttl := if mfa then PendingMfa else Active, if mfa then 300000 else 43200000;
      t.rows == s.rows[key := Row(owner, access, refresh, family, aal2, status, s.clock,
                                  Earlier(s.clock + ttl, s.clock + duration), s.clock + duration)]
  {
  }

  // ----- One row under one step -----

  predicate IsLive(r: Row) { r.status != Revoked && r.status != Expired }

  /** What the due call of a run writes in row `k`, if it gets through. */
  function RowAfter(run: Run, now: int, k: Key, r: Row): Row {
    match run.pc
    case MarkExpired => if k == run.key && IsLive(r) then r.(status := Expired) else r
    case RevokeFamily =>
      if IsLive(r) && (if run.base.family.None? then k == run.key else r.owner == run.base.owner && r.family == run.base.family)
      then r.(status := Revoked) else r
    case Store(access, refresh) =>
      if k == run.key && r.status == Active && r.refresh == run.base.refresh then r.(access := access, refresh := refresh) else r
    case PatchClaims(family, aal2) =>
      if k == run.key && r.status == Active
      then r.(family := if family.None? then run.base.family else family, aal2 := aal2) else r
    case Write(access, refresh, family) =>
      if k != run.key || r.status != (if run.request == CompleteMfa then PendingMfa else Active) then r
      else
        var held := if family.None? then run.row.family else family;
        if run.request == CompleteMfa
        then Row(r.owner, access, refresh, held, true, Active, now, Earlier(now + 43200000, run.row.absolute), r.absolute)
        else Row(r.owner, access, refresh, held, true, Active, r.lastSeen, r.idle, r.absolute)
    case Commit =>
      (match run.request
       case Touch => if k == run.key && r.status == Active then r.(lastSeen := now, idle := Earlier(now + 43200000, run.row.absolute)) else r
       case Revoke(target) => if k == target && r.owner == run.row.owner && IsLive(r) then r.(status := Revoked) else r
       case RevokeAll => if r.owner == run.row.owner && IsLive(r) then r.(status := Revoked) else r
       case _ => r)
    case _ => r
  }

  lemma ClosingWrites(s: State, id: RunId, reply: Reply, k: Key)
    requires id in s.runs && k in s.rows && (s.runs[id].pc.MarkExpired? || s.runs[id].pc.RevokeFamily?)
    ensures var t := StepRun(s, id, reply);
      t.rows.Keys == s.rows.Keys && t.rows[k] == if reply.Fault? then s.rows[k] else RowAfter(s.runs[id], s.clock, k, s.rows[k])
  {
  }

  lemma CommitWrites(s: State, id: RunId, reply: Reply, k: Key)
    requires id in s.runs && k in s.rows && s.runs[id].pc.Commit?
    ensures var t := StepRun(s, id, reply);
      t.rows.Keys == s.rows.Keys && t.rows[k] == if reply.Fault? then s.rows[k] else RowAfter(s.runs[id], s.clock, k, s.rows[k])
  {
  }

  lemma CredentialWrites(s: State, id: RunId, reply: Reply, k: Key)
    requires id in s.runs && k in s.rows && (s.runs[id].pc.Store? || s.runs[id].pc.PatchClaims? || s.runs[id].pc.Write?)
    ensures var t := StepRun(s, id, reply);
      t.rows.Keys == s.rows.Keys && t.rows[k] == if reply.Fault? then s.rows[k] else RowAfter(s.runs[id], s.clock, k, s.rows[k])
  {
  }

  /** A step that faults writes nothing; any other writes exactly that, in every row. */
  lemma StepWrites(s: State, id: RunId, reply: Reply, k: Key)
    requires id in s.runs && k in s.rows
    ensures var t := StepRun(s, id, reply);
      t.rows.Keys == s.rows.Keys && t.rows[k] == if reply.Fault? then s.rows[k] else RowAfter(s.runs[id], s.clock, k, s.rows[k])
  {
    match s.runs[id].pc
    case MarkExpired | RevokeFamily => ClosingWrites(s, id, reply, k);
    case Commit => CommitWrites(s, id, reply, k);
    case Store(_, _) => CredentialWrites(s, id, reply, k);
    case PatchClaims(_, _) => CredentialWrites(s, id, reply, k);
    case Write(_, _, _) => CredentialWrites(s, id, reply, k);
    case _ =>
  }

  // ----- Where a run goes on -----

  /** The re-read shows another credential than the one the request started from. */
  predicate PeerRotated(s: State, run: Run) { run.key in s.rows && s.rows[run.key].refresh != run.base.refresh }

  /** The stored row is active and still holds the credential the request started from. */
  predicate Untouched(s: State, run: Run) { run.key in s.rows && s.rows[run.key].status == Active && s.rows[run.key].refresh == run.base.refresh }

  predicate FreshTokens(s: State, reply: Reply) { reply.Tokens? && reply.refresh !in s.issued }

  predicate FreshFactor(s: State, run: Run, reply: Reply) {
    (run.request == CompleteMfa || run.request == StepUp) && reply.MfaTokens? && reply.refresh !in s.issued
  }

  /** How a run comes to each of its calls. */
  predicate ComesTo(s: State, run: Run, reply: Reply, pc: Pc) {
    match pc
    case MarkExpired => false
    case Verify => false
    case Token => run.pc == Verify && reply == TokenExpired
    case Reread(rejected, count) =>
      (run.pc == Token && reply == Rejected && rejected && count == 0)
      || (run.pc.Store? && reply != Fault && !Untouched(s, run) && !rejected && count == 0)
      || (count > 0 && run.pc == Reread(rejected, count - 1) && count <= 3 && reply != Fault && !PeerRotated(s, run))
    case RevokeFamily => run.pc.Reread? && run.pc.rejected && run.pc.count >= 3 && reply != Fault && !PeerRotated(s, run)
    case Store(access, refresh) => run.pc == Token && FreshTokens(s, reply) && reply == Tokens(access, refresh)
    case VerifyStored => run.pc.Store? && reply != Fault && Untouched(s, run)
    case PatchClaims(family, aal2) => run.pc == VerifyStored && reply == Claims(family, aal2)
    case VerifyPeer => run.pc.Reread? && reply != Fault && PeerRotated(s, run)
    case Act => ((run.pc == Verify || run.pc == VerifyPeer) && reply.Claims?) || (run.pc.PatchClaims? && reply != Fault)
    case Write(access, refresh, family) => run.pc == Act && FreshFactor(s, run, reply) && reply == MfaTokens(access, refresh, family)
    case Commit =>
      run.pc == Act && (match run.request
                        case Touch => s.clock - run.row.lastSeen >= 60000
                        case Revoke(_) => true
                        case RevokeAll => true
                        case _ => false)
    case Done => Ends(s, run, reply)
  }

  /** When a run has no further call to make. */
  predicate Ends(s: State, run: Run, reply: Reply) {
    match run.pc
    case Verify => !reply.Claims? && reply != TokenExpired
    case Token => reply != Rejected && !FreshTokens(s, reply)
    case Reread(rejected, count) => reply == Fault || (!PeerRotated(s, run) && !rejected && count >= 3)
    case Store(_, _) => reply == Fault
    case VerifyStored => !reply.Claims?
    case PatchClaims(_, _) => reply == Fault
    case VerifyPeer => !reply.Claims?
    case Act =>
      (match run.request
       case Authenticate => true
       case Touch => s.clock - run.row.lastSeen < 60000
       case Revoke(_) => false
       case RevokeAll => false
       case _ => !FreshFactor(s, run, reply))
    case _ => true
  }

  /** What authentication answers with, and whether the row is a peer's. */
  predicate Answers(s: State, run: Run, reply: Reply, r: Run) {
    if r.pc == VerifyPeer then run.key in s.rows && r.row == s.rows[run.key] && r.peer
    else if r.pc == VerifyStored then
      run.pc.Store? && run.key in s.rows && r.row == s.rows[run.key].(access := run.pc.access, refresh := run.pc.refresh) && !r.peer
    else if r.pc == Act && run.pc == Verify then r.row == run.base && !r.peer
    else if r.pc == Act && run.pc.PatchClaims? then
      r.row == run.row.(family := if run.pc.family.None? then run.base.family else run.pc.family, aal2 := run.pc.aal2) && !r.peer
    else r.row == run.row && r.peer == run.peer
  }

  /** The step of a run, told by what it asks for next. */
  predicate Told(s: State, id: RunId, reply: Reply)
    requires id in s.runs
  {
    var run, r := s.runs[id], StepRun(s, id, reply).runs[id];
    ComesTo(s, run, reply, r.pc) && Answers(s, run, reply, r)
  }

  lemma VerifyTold(s: State, id: RunId, reply: Reply)
    requires id in s.runs && s.runs[id].pc == Verify
    ensures Told(s, id, reply)
  {
  }

  lemma TokenTold(s: State, id: RunId, reply: Reply)
    requires id in s.runs && s.runs[id].pc == Token
    ensures Told(s, id, reply)
  {
  }

  lemma VerifyAgainTold(s: State, id: RunId, reply: Reply)
    requires id in s.runs && (s.runs[id].pc == VerifyStored || s.runs[id].pc == VerifyPeer)
    ensures Told(s, id, reply)
  {
  }

  lemma RereadTold(s: State, id: RunId, reply: Reply)
    requires id in s.runs && s.runs[id].pc.Reread?
    ensures Told(s, id, reply)
  {
  }

  lemma StoreTold(s: State, id: RunId, reply: Reply)
    requires id in s.runs && s.runs[id].pc.Store?
    ensures Told(s, id, reply)
  {
  }

  lemma ClaimsTold(s: State, id: RunId, reply: Reply)
    requires id in s.runs && s.runs[id].pc.PatchClaims?
    ensures Told(s, id, reply)
  {
  }

  lemma ActTold(s: State, id: RunId, reply: Reply)
    requires id in s.runs && s.runs[id].pc == Act
    ensures Told(s, id, reply)
  {
    var run := s.runs[id];
    if (run.request == CompleteMfa || run.request == StepUp) && reply.MfaTokens? {
      FactorTold(s, id, reply);
    } else {
      OwnWorkTold(s, id, reply);
    }
  }

  lemma FactorTold(s: State, id: RunId, reply: Reply)
    requires id in s.runs && s.runs[id].pc == Act
    requires (s.runs[id].request == CompleteMfa || s.runs[id].request == StepUp) && reply.MfaTokens?
    ensures Told(s, id, reply)
  {
  }

  lemma OwnWorkTold(s: State, id: RunId, reply: Reply)
    requires id in s.runs && s.runs[id].pc == Act
    requires !((s.runs[id].request == CompleteMfa || s.runs[id].request == StepUp) && reply.MfaTokens?)
    ensures Told(s, id, reply)
  {
  }

  lemma WriteEnds(s: State, id: RunId, reply: Reply)
    requires id in s.runs && s.runs[id].pc.Write?
    ensures StepWrite(s, id, reply).runs == s.runs[id := s.runs[id].(pc := Done)]
  {
  }

  lemma WriteTold(s: State, id: RunId, reply: Reply)
    requires id in s.runs && s.runs[id].pc.Write?
    ensures Told(s, id, reply)
  {
    WriteEnds(s, id, reply);
    assert StepRun(s, id, reply) == StepWrite(s, id, reply);
  }

  lemma LastCallTold(s: State, id: RunId, reply: Reply)
    requires id in s.runs
    requires s.runs[id].pc.MarkExpired? || s.runs[id].pc.RevokeFamily? || s.runs[id].pc.Commit? || s.runs[id].pc.Done?
    ensures Told(s, id, reply)
  {
  }

  /** Every step has its reason. */
  lemma StepIsTold(s: State, id: RunId, reply: Reply)
    requires id in s.runs
    ensures Told(s, id, reply)
  {
    match s.runs[id].pc
    case Verify => VerifyTold(s, id, reply);
    case Token => TokenTold(s, id, reply);
    case VerifyStored | VerifyPeer => VerifyAgainTold(s, id, reply);
    case Reread(_, _) => RereadTold(s, id, reply);
    case Store(_, _) => StoreTold(s, id, reply);
    case PatchClaims(_, _) => ClaimsTold(s, id, reply);
    case Act => ActTold(s, id, reply);
    case Write(_, _, _) => WriteTold(s, id, reply);
    case _ => LastCallTold(s, id, reply);
  }

  /** The run is still about the same row and request, and no other run has moved. */
  predicate OwnRunMoved(s: State, id: RunId, t: State)
    requires id in s.runs && id in t.runs
  {
    var run, r := s.runs[id], t.runs[id];
    && t.runs == s.runs[id := r] && t.clock == s.clock
    && r.key == run.key && r.request == run.request && r.readAt == run.readAt && r.base == run.base
  }

  lemma CredentialMovesOwnRun(s: State, id: RunId, reply: Reply)
    requires id in s.runs && (s.runs[id].pc == Token || s.runs[id].pc.Store?)
    ensures OwnRunMoved(s, id, StepRun(s, id, reply))
  {
  }

  lemma FactorMovesOwnRun(s: State, id: RunId, reply: Reply)
    requires id in s.runs && (s.runs[id].pc == Act || s.runs[id].pc.Write?)
    ensures OwnRunMoved(s, id, StepRun(s, id, reply))
  {
    if s.runs[id].pc.Write? {
      WriteEnds(s, id, reply);
      assert StepRun(s, id, reply) == StepWrite(s, id, reply);
    }
  }

  lemma ReadingMovesOwnRun(s: State, id: RunId, reply: Reply)
    requires id in s.runs && (s.runs[id].pc.Reread? || s.runs[id].pc.PatchClaims? || s.runs[id].pc == Verify)
    ensures OwnRunMoved(s, id, StepRun(s, id, reply))
  {
  }

  /** A step moves its own run only, and not what that run is about. */
  lemma StepMovesOwnRun(s: State, id: RunId, reply: Reply)
    requires id in s.runs
    ensures OwnRunMoved(s, id, StepRun(s, id, reply))
  {
    match s.runs[id].pc
    case Token => CredentialMovesOwnRun(s, id, reply);
    case Store(_, _) => CredentialMovesOwnRun(s, id, reply);
    case Act => FactorMovesOwnRun(s, id, reply);
    case Write(_, _, _) => FactorMovesOwnRun(s, id, reply);
    case Verify => ReadingMovesOwnRun(s, id, reply);
    case Reread(_, _) => ReadingMovesOwnRun(s, id, reply);
    case PatchClaims(_, _) => ReadingMovesOwnRun(s, id, reply);
    case _ =>
  }

  // ----- Over every history -----

  /** At step `k` the provider confirms the credential with which the request goes on. */
  ghost predicate ConfirmedAt(now: int, actions: seq<Action>, k: nat, id: RunId) {
    k < |actions| && actions[k].Step? && actions[k].run == id && actions[k].reply.Claims?
    && id in Execute(Start(now), actions[..k]).runs
    && var pc := Execute(Start(now), actions[..k]).runs[id].pc; pc == Verify || pc == VerifyStored || pc == VerifyPeer
  }

  predicate GoesOn(run: Run) { run.request != CompleteMfa && (run.pc.PatchClaims? || run.pc == Act || run.pc.Write? || run.pc == Commit) }

  /** In every history a request does its work, and writes, only after the provider has confirmed its credential. */
  lemma {:induction false} WorksOnlyConfirmed(now: int, actions: seq<Action>, id: RunId) returns (k: nat)
    requires id in Execute(Start(now), actions).runs && GoesOn(Execute(Start(now), actions).runs[id])
    ensures ConfirmedAt(now, actions, k, id)
  {
    var prior, a := actions[..|actions| - 1], actions[|actions| - 1];
    var before := Execute(Start(now), prior);
    GoesOnSince(before, a, id);
    if a.Step? && a.run == id && a.reply.Claims? && !GoesOn(before.runs[id]) {
      k := |actions| - 1;
    } else {
      k := WorksOnlyConfirmed(now, prior, id);
      assert actions[..k] == prior[..k];
    }
  }

  lemma GoesOnSince(s: State, a: Action, id: RunId)
    requires id in Apply(s, a).runs && GoesOn(Apply(s, a).runs[id])
    ensures id in s.runs
    ensures GoesOn(s.runs[id])
            || (a.Step? && a.run == id && a.reply.Claims?
                && (s.runs[id].pc == Verify || s.runs[id].pc == VerifyStored || s.runs[id].pc == VerifyPeer))
  {
    match a
    case Begin(run, key, request) => if run == id && id !in s.runs && key in s.rows { BeginsWith(s, id, key, request); }
    case Step(run, reply) =>
      if run in s.runs {
        StepMovesOwnRun(s, run, reply);
        StepIsTold(s, run, reply);
      }
    case _ =>
  }
}
