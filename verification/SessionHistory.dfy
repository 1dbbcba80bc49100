/** Theorems about whole histories of the session ledger, and the two races it does lose. */
module SessionHistory {
  import opened Outcomes
  import opened BrowserSession
  import opened SessionSafety

  ghost predicate Reachable(now: int, actions: seq<Action>, s: State) { s == Execute(Start(now), actions) }

  lemma {:induction false} ReachableIsInv(now: int, actions: seq<Action>, s: State)
    requires Reachable(now, actions, s)
    ensures Inv(s)
  {
    ReachableInv(Start(now), actions);
  }

  lemma ProgressTransitive(s: State, t: State, u: State)
    requires Progress(s, t) && Progress(t, u)
    ensures Progress(s, u)
  {
    forall k | k in s.rows
      ensures k in u.rows && Advances(s.rows[k], u.rows[k])
      ensures u.rows[k].refresh == s.rows[k].refresh || s.rows[k].refresh in u.retired
    {
      assert Advances(s.rows[k], t.rows[k]) && Advances(t.rows[k], u.rows[k]);
    }
  }

  lemma {:induction false} RunsProgress(s: State, actions: seq<Action>)
    requires Inv(s)
    ensures Inv(Execute(s, actions)) && Progress(s, Execute(s, actions))
  {
    if actions == [] {
      NothingMoves(s);
    } else {
      var prefix := actions[..|actions| - 1];
      RunsProgress(s, prefix);
      ApplyKeepsInv(Execute(s, prefix), actions[|actions| - 1]);
      ProgressTransitive(s, Execute(s, prefix), Execute(s, actions));
    }
  }

  // ---- lifecycle ----

  /** Expired and revoked rows are final down to every column. */
  lemma ClosedIsFinal(now: int, past: seq<Action>, future: seq<Action>, k: Key)
    requires k in Execute(Start(now), past).rows && !Live(Execute(Start(now), past).rows[k])
    ensures var s := Execute(Start(now), past);
      k in Execute(s, future).rows && Execute(s, future).rows[k] == s.rows[k]
  {
    var s := Execute(Start(now), past);
    ReachableIsInv(now, past, s);
    RunsProgress(s, future);
  }

  /** Owner and absolute expiry never change, idle expiry never passes the absolute one, status never goes back. */
  lemma AbsoluteExpiryIsFixed(now: int, past: seq<Action>, future: seq<Action>, k: Key)
    requires k in Execute(Start(now), past).rows
    ensures var s := Execute(Start(now), past); var t := Execute(s, future);
      k in t.rows && t.rows[k].absolute == s.rows[k].absolute && t.rows[k].owner == s.rows[k].owner
      && t.rows[k].idle <= t.rows[k].absolute && Rank(s.rows[k].status) <= Rank(t.rows[k].status)
  {
    var s := Execute(Start(now), past);
    ReachableIsInv(now, past, s);
    RunsProgress(s, future);
    assert Advances(s.rows[k], Execute(s, future).rows[k]);
  }

  // ---- credentials ----

  /** A ciphertext held at two moments was held throughout: an overwritten credential never comes back. */
  lemma CredentialNeverReturns(now: int, past: seq<Action>, middle: seq<Action>, later: seq<Action>, k: Key)
    requires k in Execute(Start(now), past).rows
    requires var s := Execute(Start(now), past); var u := Execute(Execute(s, middle), later);
      k in u.rows && u.rows[k].refresh == s.rows[k].refresh
    ensures var s := Execute(Start(now), past); var t := Execute(s, middle);
      k in t.rows && t.rows[k].refresh == s.rows[k].refresh
  {
    var s := Execute(Start(now), past);
    var t := Execute(s, middle);
    ReachableIsInv(now, past, s);
    RunsProgress(s, middle);
    RunsProgress(t, later);
  }

  /** A refresh stores its credential only over the one it started from; every other row stays as it was. */
  lemma RotationReplacesItsOwn(s: State, id: RunId, reply: Reply)
    requires Inv(s) && id in s.runs && s.runs[id].pc.Store?
    ensures var run := s.runs[id]; var s' := StepRun(s, id, reply);
      if s'.rows == s.rows then s'.log == s.log
      else s.rows[run.key].status == Active && s.rows[run.key].refresh == run.base.refresh
           && s'.rows == s.rows[run.key := s.rows[run.key].(access := run.pc.access, refresh := run.pc.refresh)]
           && s'.log == s.log + [Rotation(run.key, run.base.refresh, run.pc.refresh)]
  {
    assert RunOk(s, s.runs[id]);
    StoredIsNew(s, id);
  }

  /** However many replicas race with one refresh credential, at most one rotation from it is stored. */
  lemma OneRotationPerCredential(now: int, actions: seq<Action>, i: nat, j: nat)
    requires i < j < |Execute(Start(now), actions).log|
    ensures Execute(Start(now), actions).log[i].from != Execute(Start(now), actions).log[j].from
  {
    ReachableIsInv(now, actions, Execute(Start(now), actions));
  }

  // ---- family revocation ----

  /** The token endpoint refused the credential of run `id` explicitly at position `i`. */
  predicate RefusedAt(s: State, actions: seq<Action>, id: RunId, i: nat) {
    i < |actions| && actions[i] == Step(id, Rejected)
    && id in Execute(s, actions[..i]).runs && Execute(s, actions[..i]).runs[id].pc == Token
  }

  /** At position `j` run `id` read its row, and the row still held the credential the run started from. */
  predicate SeenUnchangedAt(s: State, actions: seq<Action>, id: RunId, j: nat, count: nat) {
    j < |actions| && actions[j].Step? && actions[j].run == id
    && var t := Execute(s, actions[..j]);
       id in t.runs && t.runs[id].pc == Reread(true, count)
       && t.runs[id].key in t.rows && t.rows[t.runs[id].key].refresh == t.runs[id].base.refresh
  }

  ghost predicate RefusedBefore(s: State, actions: seq<Action>, id: RunId) {
    exists i: nat :: RefusedAt(s, actions, id, i)
  }

  ghost predicate SeenUnchanged(s: State, actions: seq<Action>, id: RunId, count: nat) {
    exists j: nat :: SeenUnchangedAt(s, actions, id, j, count)
  }

  /** How far a run on its way to revoking the family has come: refused, then seen unchanged `count` times. */
  ghost predicate Grounds(s: State, actions: seq<Action>, id: RunId, count: nat) {
    RefusedBefore(s, actions, id) && forall c :: 0 <= c < count ==> SeenUnchanged(s, actions, id, c)
  }

  lemma SeenPersists(s: State, actions: seq<Action>, a: Action, id: RunId, c: nat)
    requires SeenUnchanged(s, actions, id, c)
    ensures SeenUnchanged(s, actions + [a], id, c)
  {
    var j: nat :| SeenUnchangedAt(s, actions, id, j, c);
    assert (actions + [a])[..j] == actions[..j];
    assert SeenUnchangedAt(s, actions + [a], id, j, c);
  }

  lemma GroundsPersist(s: State, actions: seq<Action>, a: Action, id: RunId, count: nat)
    requires Grounds(s, actions, id, count)
    ensures Grounds(s, actions + [a], id, count)
  {
    var i: nat :| RefusedAt(s, actions, id, i);
    assert (actions + [a])[..i] == actions[..i];
    assert RefusedAt(s, actions + [a], id, i);
    forall c | 0 <= c < count ensures SeenUnchanged(s, actions + [a], id, c) { SeenPersists(s, actions, a, id, c); }
  }

  /** Only the run's own step moves it. */
  lemma OthersStay(s: State, a: Action, id: RunId)
    requires id in s.runs && (a.Step? ==> a.run != id)
    ensures id in Apply(s, a).runs && Apply(s, a).runs[id] == s.runs[id]
  {
    if a.Step? && a.run in s.runs { assert StepRun(s, a.run, a.reply).runs[id] == s.runs[id]; }
  }

  lemma NewRunHasNoGrounds(s: State, a: Action, id: RunId)
    requires id !in s.runs && id in Apply(s, a).runs
    ensures !Apply(s, a).runs[id].pc.Reread? && !Apply(s, a).runs[id].pc.RevokeFamily?
  {
  }

  predicate OnlyRefused(s: State, id: RunId, reply: Reply, pc': Pc)
    requires id in s.runs
  {
    !pc'.RevokeFamily? && (pc'.Reread? && pc'.rejected ==> pc'.count == 0 && s.runs[id].pc == Token && reply == Rejected)
  }

  lemma CredentialStepsRefuse(s: State, id: RunId, reply: Reply)
    requires id in s.runs
    requires var pc := s.runs[id].pc; pc.Token? || pc.Store? || pc.Act? || pc.Write?
    ensures OnlyRefused(s, id, reply, StepRun(s, id, reply).runs[id].pc)
  {
  }

  lemma OtherStepsRefuse(s: State, id: RunId, reply: Reply)
    requires id in s.runs
    requires var pc := s.runs[id].pc;
      pc.MarkExpired? || pc.Verify? || pc.VerifyStored? || pc.PatchClaims? || pc.VerifyPeer? || pc.Commit? || pc.Done?
    ensures OnlyRefused(s, id, reply, StepRun(s, id, reply).runs[id].pc)
  {
  }

  /** From anywhere but a re-read, only an explicit refusal leads towards revocation. */
  lemma RefusalLeadsToRereads(s: State, id: RunId, reply: Reply)
    requires id in s.runs && !s.runs[id].pc.Reread? && !s.runs[id].pc.RevokeFamily?
    ensures OnlyRefused(s, id, reply, StepRun(s, id, reply).runs[id].pc)
  {
    var pc := s.runs[id].pc;
    if pc.Token? || pc.Store? || pc.Act? || pc.Write? { CredentialStepsRefuse(s, id, reply); }
    else { OtherStepsRefuse(s, id, reply); }
  }

  /** A re-read goes on only while it finds the old ciphertext. */
  lemma RereadsFindTheSame(s: State, id: RunId, reply: Reply)
    requires id in s.runs && s.runs[id].key in s.rows && s.runs[id].pc.Reread?
    ensures var pc, pc' := s.runs[id].pc, StepRun(s, id, reply).runs[id].pc;
      (pc'.Reread? || pc'.RevokeFamily? ==> s.rows[s.runs[id].key].refresh == s.runs[id].base.refresh)
      && (pc'.Reread? ==> pc' == Reread(pc.rejected, pc.count + 1))
      && (pc'.RevokeFamily? ==> pc.rejected && pc.count + 1 >= REREADS)
  {
  }

  lemma RevokingRunStops(s: State, id: RunId, reply: Reply)
    requires id in s.runs && s.runs[id].pc.RevokeFamily?
    ensures StepRun(s, id, reply).runs[id].pc == Done
  {
  }

  ghost predicate Bound(pc: Pc, count: nat) { pc == Reread(true, count) || (pc.RevokeFamily? && count == REREADS) }

  lemma RereadExtendsGrounds(s: State, actions: seq<Action>, a: Action, id: RunId, count: nat)
    requires a.Step? && a.run == id && Inv(Execute(s, actions))
    requires var t := Execute(s, actions); id in t.runs && t.runs[id].pc == Reread(true, count)
    requires var t := Execute(s, actions); t.runs[id].key in t.rows && t.rows[t.runs[id].key].refresh == t.runs[id].base.refresh
    requires Grounds(s, actions, id, count)
    ensures Grounds(s, actions + [a], id, count + 1)
  {
    GroundsPersist(s, actions, a, id, count);
    var more := actions + [a];
    assert more[..|actions|] == actions && more[|actions|] == a;
    assert SeenUnchangedAt(s, more, id, |actions|, count);
    assert SeenUnchanged(s, more, id, count);
  }

  lemma RefusalStartsGrounds(s: State, actions: seq<Action>, id: RunId)
    requires var t := Execute(s, actions); id in t.runs && t.runs[id].pc == Token
    ensures Grounds(s, actions + [Step(id, Rejected)], id, 0)
  {
    var more := actions + [Step(id, Rejected)];
    assert more[..|actions|] == actions;
    assert RefusedAt(s, more, id, |actions|);
  }

  lemma ExecuteOneMore(s: State, actions: seq<Action>, a: Action)
    ensures Execute(s, actions + [a]) == Apply(Execute(s, actions), a)
  {
    assert (actions + [a])[..|actions|] == actions;
  }

  lemma StepJustified(s: State, actions: seq<Action>, a: Action, id: RunId, count: nat)
    requires Inv(Execute(s, actions)) && a.Step? && a.run == id && id in Execute(s, actions).runs
    requires forall c: nat :: Bound(Execute(s, actions).runs[id].pc, c) ==> Grounds(s, actions, id, c)
    requires Bound(Apply(Execute(s, actions), a).runs[id].pc, count)
    ensures Grounds(s, actions + [a], id, count)
  {
    var t := Execute(s, actions);
    assert RunOk(t, t.runs[id]);
    if t.runs[id].pc.Reread? {
      RereadsFindTheSame(t, id, a.reply);
      var c := t.runs[id].pc.count;
      assert Bound(t.runs[id].pc, c);
      RereadExtendsGrounds(s, actions, a, id, c);
    } else if t.runs[id].pc.RevokeFamily? {
      RevokingRunStops(t, id, a.reply);
    } else {
      RefusalLeadsToRereads(t, id, a.reply);
      RefusalStartsGrounds(s, actions, id);
    }
  }

  lemma {:induction false} RunsAreJustified(now: int, actions: seq<Action>, id: RunId, count: nat)
    requires var t := Execute(Start(now), actions); id in t.runs && Bound(t.runs[id].pc, count)
    ensures Grounds(Start(now), actions, id, count)
  {
    var s := Start(now);
    if actions != [] {
      var prefix, a := actions[..|actions| - 1], actions[|actions| - 1];
      var t := Execute(s, prefix);
      assert actions == prefix + [a];
      ReachableIsInv(now, prefix, t);
      if id !in t.runs {
        NewRunHasNoGrounds(t, a, id);
      } else {
        forall c: nat | Bound(t.runs[id].pc, c) ensures Grounds(s, prefix, id, c) { RunsAreJustified(now, prefix, id, c); }
        if a.Step? && a.run == id {
          StepJustified(s, prefix, a, id, count);
        } else {
          OthersStay(t, a, id);
          GroundsPersist(s, prefix, a, id, count);
        }
      }
    }
  }

  /**
   * A refresh revokes a family only after the token endpoint refused its credential with 400 or 401, and
   * after each of the four durable re-reads, the last included, found the row still holding that credential.
   */
  lemma FamilyRevokedOnlyAfterRefusal(now: int, actions: seq<Action>, id: RunId)
    requires var t := Execute(Start(now), actions); id in t.runs && t.runs[id].pc.RevokeFamily?
    ensures RefusedBefore(Start(now), actions, id)
    ensures forall c :: 0 <= c < REREADS ==> SeenUnchanged(Start(now), actions, id, c)
  {
    assert Bound(Execute(Start(now), actions).runs[id].pc, REREADS);
    RunsAreJustified(now, actions, id, REREADS);
  }

  // ---- who closes and who opens a row ----

  /** Revoking a family closes all its live rows and leaves every other row alone. */
  lemma FamilyRevocationIsExact(s: State, id: RunId, k: Key)
    requires id in s.runs && s.runs[id].pc.RevokeFamily? && k in s.rows
    ensures var run, r := s.runs[id], s.rows[k]; var t := StepRun(s, id, Fine);
      k in t.rows
      && (SameFamily(run.base, run.key, k, r) ==> !Live(t.rows[k]) && t.rows[k].refresh == r.refresh)
      && (!SameFamily(run.base, run.key, k, r) || !Live(r) ==> t.rows[k] == r)
  {
  }

  predicate Activates(s: State, t: State, k: Key) {
    k in s.rows && k in t.rows && s.rows[k].status == PendingMfa && t.rows[k].status == Active
  }

  lemma ClosingActivatesNothing(rows: Rows, hit: (Key, Row) -> bool, status: Status, k: Key)
    requires k in rows && status != Active && rows[k].status == PendingMfa
    ensures Close(rows, hit, status)[k].status != Active
  {
  }

  lemma CommitActivatesNothing(s: State, run: Run, k: Key)
    requires k in s.rows && s.rows[k].status == PendingMfa
    ensures k in Committed(s, run) && Committed(s, run)[k].status != Active
  {
    match run.request
    case Revoke(target) =>
      ClosingActivatesNothing(s.rows, (k: Key, r: Row) => k == target && r.owner == run.row.owner, Revoked, k);
    case RevokeAll =>
      ClosingActivatesNothing(s.rows, (k: Key, r: Row) => r.owner == run.row.owner, Revoked, k);
    case _ =>
  }

  lemma ClosersActivateNothing(rows: Rows, key: Key, base: Row, k: Key)
    requires k in rows && rows[k].status == PendingMfa
    ensures MarkedExpired(rows, key)[k].status != Active && FamilyRevoked(rows, key, base)[k].status != Active
  {
    ClosingActivatesNothing(rows, (k: Key, r: Row) => SameFamily(base, key, k, r), Revoked, k);
    ClosingActivatesNothing(rows, (k: Key, r: Row) => k == key, Expired, k);
  }

  lemma PatchActivatesNothing(s: State, id: RunId, reply: Reply, k: Key)
    requires id in s.runs && k in s.rows && s.rows[k].status == PendingMfa
    requires s.runs[id].pc.MarkExpired? || s.runs[id].pc.RevokeFamily? || s.runs[id].pc.Commit?
    ensures !Activates(s, StepRun(s, id, reply), k)
  {
    if s.runs[id].pc.Commit? { CommitActivatesNothing(s, s.runs[id], k); }
    else { ClosersActivateNothing(s.rows, s.runs[id].key, s.runs[id].base, k); }
  }

  lemma CredentialActivates(s: State, id: RunId, reply: Reply, k: Key)
    requires id in s.runs && k in s.rows && s.rows[k].status == PendingMfa
    requires s.runs[id].pc.Store? || s.runs[id].pc.Write? || s.runs[id].pc.PatchClaims?
    requires Activates(s, StepRun(s, id, reply), k)
    ensures var t := StepRun(s, id, reply);
      s.runs[id].request.CompleteMfa? && s.runs[id].pc.Write? && s.runs[id].key == k
      && t.rows[k].aal2 && t.rows[k].refresh == s.runs[id].pc.newRefresh
  {
  }

  lemma OthersActivateNothing(s: State, id: RunId, reply: Reply)
    requires id in s.runs
    requires var pc := s.runs[id].pc;
      pc.Verify? || pc.Token? || pc.Reread? || pc.VerifyStored? || pc.VerifyPeer? || pc.Act? || pc.Done?
    ensures StepRun(s, id, reply).rows == s.rows
  {
  }

  /** A pending row becomes active only when its own second-factor request stores the verified credential. */
  lemma OnlySecondFactorActivates(s: State, a: Action, k: Key)
    requires Activates(s, Apply(s, a), k)
    ensures a.Step? && a.run in s.runs
    ensures var run := s.runs[a.run]; var t := Apply(s, a);
      run.request.CompleteMfa? && run.pc.Write? && run.key == k && t.rows[k].aal2 && t.rows[k].refresh == run.pc.newRefresh
  {
    if a.Step? && a.run in s.runs {
      var pc := s.runs[a.run].pc;
      if pc.MarkExpired? || pc.RevokeFamily? || pc.Commit? { PatchActivatesNothing(s, a.run, a.reply, k); }
      else if pc.Store? || pc.Write? || pc.PatchClaims? { CredentialActivates(s, a.run, a.reply, k); }
      else { OthersActivateNothing(s, a.run, a.reply); }
    }
  }

  // ---- the race the re-reads cannot close ----

  /** A peer that stores its rotation between the last re-read and the revocation loses the new credential with the family. */
  lemma PeerRotationIsRevoked(s: State, id: RunId, peer: RunId)
    requires Inv(s) && id in s.runs && peer in s.runs && id != peer && s.runs[id].key == s.runs[peer].key
    requires s.runs[id].pc.RevokeFamily? && s.runs[peer].pc.Store?
    requires var r := s.rows[s.runs[id].key];
      r.status == Active && r.refresh == s.runs[peer].base.refresh && SameFamily(s.runs[id].base, s.runs[id].key, s.runs[id].key, r)
    ensures var t := Apply(s, Step(peer, Fine)); var u := Apply(t, Step(id, Fine)); var k := s.runs[id].key;
      t.rows[k].refresh != s.rows[k].refresh && t.rows[k].status == Active
      && u.rows[k].refresh == t.rows[k].refresh && u.rows[k].status == Revoked
  {
    assert RunOk(s, s.runs[id]);
    StoredIsNew(s, peer);
    var t := Apply(s, Step(peer, Fine));
    assert t.runs[id] == s.runs[id];
    assert SameFamily(s.runs[id].base, s.runs[id].key, s.runs[id].key, t.rows[s.runs[id].key]);
  }

  // ---- whose row authentication answers with ----

  /** The request is past its first checks and has not given up. */
  predicate GoesOn(pc: Pc) { !pc.MarkExpired? && !pc.Done? }

  predicate AnswersActive(run: Run) {
    if run.request.CompleteMfa? then
      run.base.status == PendingMfa && (GoesOn(run.pc) ==> run.base.idle > run.readAt && (run.pc.Act? || run.pc.Write?))
    else
      run.base.status == Active && (!run.peer ==> run.row.status == Active)
      && (GoesOn(run.pc) ==> !PastExpiry(run.base, run.readAt))
      && (run.pc.VerifyStored? || run.pc.PatchClaims? ==> !run.peer)
  }

  lemma RefreshAnswers(s: State, id: RunId, reply: Reply)
    requires id in s.runs && AnswersActive(s.runs[id])
    requires s.runs[id].pc.Reread? || s.runs[id].pc.Store?
    ensures AnswersActive(StepRun(s, id, reply).runs[id])
  {
  }

  lemma CredentialAnswers(s: State, id: RunId, reply: Reply)
    requires id in s.runs && AnswersActive(s.runs[id])
    requires s.runs[id].pc.Token? || s.runs[id].pc.Act? || s.runs[id].pc.Write?
    ensures AnswersActive(StepRun(s, id, reply).runs[id])
  {
  }

  lemma StepAnswers(s: State, id: RunId, reply: Reply)
    requires id in s.runs && AnswersActive(s.runs[id])
    ensures AnswersActive(StepRun(s, id, reply).runs[id])
  {
    match s.runs[id].pc
    case Token => CredentialAnswers(s, id, reply);
    case Act => CredentialAnswers(s, id, reply);
    case Write(_, _, _) => CredentialAnswers(s, id, reply);
    case Reread(_, _) => RefreshAnswers(s, id, reply);
    case Store(_, _) => RefreshAnswers(s, id, reply);
    case Done =>
    case PatchClaims(_, _) => OtherAnswers(s, id, reply);
    case _ => OtherAnswers(s, id, reply);
  }

  lemma OtherAnswers(s: State, id: RunId, reply: Reply)
    requires id in s.runs && AnswersActive(s.runs[id])
    requires var pc := s.runs[id].pc; pc.MarkExpired? || pc.Verify? || pc.RevokeFamily? || pc.VerifyStored? || pc.PatchClaims? || pc.VerifyPeer? || pc.Commit?
    ensures AnswersActive(StepRun(s, id, reply).runs[id])
  {
  }

  /**
   * A request goes on only with a row it read as active and unexpired (pending and unexpired for the second
   * factor), and without a peer's refresh the row it answers with is active too.
   */
  lemma {:induction false} AnswerWasActive(now: int, actions: seq<Action>, id: RunId)
    requires id in Execute(Start(now), actions).runs
    ensures AnswersActive(Execute(Start(now), actions).runs[id])
  {
    if actions != [] {
      var prefix, a := actions[..|actions| - 1], actions[|actions| - 1];
      var t := Execute(Start(now), prefix);
      if id !in t.runs {
        assert a.Begin?;
      } else {
        AnswerWasActive(now, prefix, id);
        if a.Step? && a.run == id { StepAnswers(t, id, a.reply); } else { OthersStay(t, a, id); }
      }
    }
  }

  /** The row taken over from a peer is not checked again: a request goes ahead on a session revoked meanwhile. */
  lemma PeerRowIsNotRechecked(s: State, id: RunId, reply: Reply, family: Option<string>, aal2: bool)
    requires id in s.runs && s.runs[id].pc.Reread? && !reply.Fault?
    requires s.runs[id].key in s.rows && s.rows[s.runs[id].key].refresh != s.runs[id].base.refresh
    ensures var t := Apply(Apply(s, Step(id, reply)), Step(id, Claims(family, aal2)));
      t.runs[id].pc == Act && t.runs[id].row == s.rows[s.runs[id].key]
  {
  }

  // ---- both races happen ----

  /** One session, refreshed by two replicas at once: request 0 at `pc`, its peer at `peerPc`. */
  function Race(now: int, pc: Pc, peerPc: Pc, issued: set<Cipher>): State {
    var r := Row("owner", 0, 0, Some("family"), false, Active, now, now + 1000, now + 1000);
    State(map[0 := r], map[0 := Run(0, Authenticate, now, r, r, false, pc), 1 := Run(0, Authenticate, now, r, r, false, peerPc)],
          now, issued, {}, [])
  }

  function RaceCreate(): Action { Create(0, "owner", 0, 0, Some("family"), false, false, 1000) }

  lemma RaceCreates(now: int)
    ensures Apply(Start(now), RaceCreate()) == Race(now, Verify, Verify, {0}).(runs := map[])
  {
    assert Apply(Start(now), RaceCreate()).issued == {0};
  }

  lemma RaceBegins(now: int)
    ensures var s := Race(now, Verify, Verify, {0});
      Apply(Apply(s.(runs := map[]), Begin(0, 0, Authenticate)), Begin(1, 0, Authenticate)) == s
  {
    var s := Race(now, Verify, Verify, {0});
    var t := Apply(s.(runs := map[]), Begin(0, 0, Authenticate));
    assert t.runs == map[0 := s.runs[0]];
    assert Apply(t, Begin(1, 0, Authenticate)).runs == s.runs;
  }

  lemma RaceStarts(now: int)
    ensures Execute(Start(now), [RaceCreate(), Begin(0, 0, Authenticate), Begin(1, 0, Authenticate)]) == Race(now, Verify, Verify, {0})
  {
    var all := [RaceCreate(), Begin(0, 0, Authenticate), Begin(1, 0, Authenticate)];
    assert all[..0] == [] && all[..3] == all;
    ExecutePrefix(Start(now), all, 0);
    ExecutePrefix(Start(now), all, 1);
    ExecutePrefix(Start(now), all, 2);
    RaceCreates(now);
    RaceBegins(now);
  }

  lemma FirstMoves(now: int, pc: Pc, peerPc: Pc, issued: set<Cipher>, reply: Reply, next: Pc)
    requires StepRun(Race(now, pc, peerPc, issued), 0, reply) == Goto(Race(now, pc, peerPc, issued), 0, next)
    ensures Apply(Race(now, pc, peerPc, issued), Step(0, reply)) == Race(now, next, peerPc, issued)
  {
    assert Goto(Race(now, pc, peerPc, issued), 0, next).runs == Race(now, next, peerPc, issued).runs;
  }

  /** From both replicas' token expiring to the refused one having read the row four times. */
  function RaceActions(): seq<Action> {
    [Step(0, TokenExpired), Step(0, Rejected), Step(0, Fine), Step(0, Fine), Step(0, Fine), Step(0, Fine)]
  }

  lemma RefusedReplicaReachesRevocation(now: int, issued: set<Cipher>, access: Cipher, refresh: Cipher)
    ensures Execute(Race(now, Verify, Store(access, refresh), issued), RaceActions()) == Race(now, RevokeFamily, Store(access, refresh), issued)
  {
    var p := Store(access, refresh);
    var s := Race(now, Verify, p, issued);
    FirstMoves(now, Verify, p, issued, TokenExpired, Token);
    FirstMoves(now, Token, p, issued, Rejected, Reread(true, 0));
    FirstMoves(now, Reread(true, 0), p, issued, Fine, Reread(true, 1));
    FirstMoves(now, Reread(true, 1), p, issued, Fine, Reread(true, 2));
    FirstMoves(now, Reread(true, 2), p, issued, Fine, Reread(true, 3));
    FirstMoves(now, Reread(true, 3), p, issued, Fine, RevokeFamily);
    ExecuteSix(s, Step(0, TokenExpired), Step(0, Rejected), Step(0, Fine), Step(0, Fine), Step(0, Fine), Step(0, Fine));
  }

  lemma ExecuteSix(s: State, a: Action, b: Action, c: Action, d: Action, e: Action, f: Action)
    ensures Execute(s, [a, b, c, d, e, f]) == Apply(Apply(Apply(Apply(Apply(Apply(s, a), b), c), d), e), f)
  {
    ExecuteFour(s, a, b, c, d);
    ExecuteOneMore(s, [a, b, c, d], e);
    ExecuteOneMore(s, [a, b, c, d, e], f);
    assert [a, b, c, d] + [e] == [a, b, c, d, e] && [a, b, c, d, e] + [f] == [a, b, c, d, e, f];
  }

  lemma ExecuteFour(s: State, a: Action, b: Action, c: Action, d: Action)
    ensures Execute(s, [a, b, c, d]) == Apply(Apply(Apply(Apply(s, a), b), c), d)
  {
    GrowsToFour(a, b, c, d);
    ExecuteOneMore(s, [], a);
    ExecuteOneMore(s, [a], b);
    ExecuteOneMore(s, [a, b], c);
    ExecuteOneMore(s, [a, b, c], d);
  }

  lemma ExecutePrefix(s: State, actions: seq<Action>, i: nat)
    requires i < |actions|
    ensures Execute(s, actions[..i + 1]) == Apply(Execute(s, actions[..i]), actions[i])
  {
    assert actions[..i + 1] == actions[..i] + [actions[i]];
    ExecuteOneMore(s, actions[..i], actions[i]);
  }

  lemma SplitLast(a: seq<Action>, b: seq<Action>)
    requires |b| > 0
    ensures a + b == (a + b[..|b| - 1]) + [b[|b| - 1]] && b == b[..|b| - 1] + [b[|b| - 1]]
  {
  }

  lemma {:induction false} ExecuteAppends(s: State, a: seq<Action>, b: seq<Action>)
    ensures Execute(s, a + b) == Execute(Execute(s, a), b)
  {
    if |b| == 0 {
      assert a + b == a;
    } else {
      var front, last := b[..|b| - 1], b[|b| - 1];
      ExecuteAppends(s, a, front);
      SplitLast(a, b);
      ExecuteOneMore(s, a + front, last);
      ExecuteOneMore(Execute(s, a), front, last);
    }
  }

  /** The peer's request gets its new credential while request 0 has not yet asked for one. */
  lemma PeerHoldsCredential(now: int)
    ensures Apply(Apply(Race(now, Verify, Verify, {0}), Step(1, TokenExpired)), Step(1, Tokens(1, 1))) == Race(now, Verify, Store(1, 1), {0, 1})
  {
    var s := Apply(Race(now, Verify, Verify, {0}), Step(1, TokenExpired));
    assert s == Race(now, Verify, Token, {0}) by { assert s.runs == Race(now, Verify, Token, {0}).runs; }
    var t := Apply(s, Step(1, Tokens(1, 1)));
    assert t.runs == Race(now, Verify, Store(1, 1), {0, 1}).runs && t.issued == {0, 1};
  }

  /** A reachable history in which a family is revoked although its row already holds a credential a peer refreshed. */
  lemma RevocationHitsPeersCredential(now: int) returns (actions: seq<Action>)
    ensures var s := Execute(Start(now), actions); var u := Apply(s, Step(0, Fine));
      0 in s.runs && s.runs[0].pc == RevokeFamily && 0 in s.rows
      && s.rows[0].refresh != s.runs[0].base.refresh && s.rows[0].status == Active && u.rows[0].status == Revoked
  {
    var start := [RaceCreate(), Begin(0, 0, Authenticate), Begin(1, 0, Authenticate)];
    var peer := [Step(1, TokenExpired), Step(1, Tokens(1, 1))];
    var before := start + peer + RaceActions();
    RaceStarts(now);
    var r0 := Race(now, Verify, Verify, {0});
    assert Execute(r0, peer) == Race(now, Verify, Store(1, 1), {0, 1}) by {
      assert peer[..0] == [] && peer[..1] == [peer[0]] && peer[..2] == peer;
      ExecutePrefix(r0, peer, 0);
      ExecutePrefix(r0, peer, 1);
      PeerHoldsCredential(now);
    }
    ExecuteAppends(Start(now), start, peer);
    ExecuteAppends(Start(now), start + peer, RaceActions());
    RefusedReplicaReachesRevocation(now, {0, 1}, 1, 1);
    var s := Race(now, RevokeFamily, Store(1, 1), {0, 1});
    ReachableIsInv(now, before, s);
    PeerRotationIsRevoked(s, 0, 1);
    actions := before + [Step(1, Fine)];
    ExecuteOneMore(Start(now), before, Step(1, Fine));
  }

  /** A logout of the row's owner, from its first read to its write. */
  function LogoutActions(id: RunId, key: Key): seq<Action> {
    [Begin(id, key, RevokeAll), Step(id, Claims(None, false)), Step(id, Fine), Step(id, Fine)]
  }

  lemma LogoutBegins(s: State, id: RunId, key: Key)
    requires id !in s.runs && key in s.rows && s.rows[key].status == Active && !PastExpiry(s.rows[key], s.clock)
    ensures var t := Apply(Apply(s, Begin(id, key, RevokeAll)), Step(id, Claims(None, false)));
      t.rows == s.rows && t.runs == s.runs[id := Run(key, RevokeAll, s.clock, s.rows[key], s.rows[key], false, Act)]
  {
  }

  lemma LogoutWrites(s: State, id: RunId, key: Key)
    requires id in s.runs && key in s.rows && Live(s.rows[key])
    requires s.runs[id].request == RevokeAll && s.runs[id].pc == Act && s.runs[id].row.owner == s.rows[key].owner
    ensures var t := Apply(Apply(s, Step(id, Fine)), Step(id, Fine));
      key in t.rows && t.rows[key] == s.rows[key].(status := Revoked) && forall i :: i in s.runs && i != id ==> i in t.runs && t.runs[i] == s.runs[i]
  {
    var u := Apply(s, Step(id, Fine));
    assert u.runs[id] == s.runs[id].(pc := Commit) && u.rows == s.rows;
  }

  lemma LogoutRevokes(s: State, id: RunId, key: Key)
    requires id !in s.runs && key in s.rows && s.rows[key].status == Active && !PastExpiry(s.rows[key], s.clock)
    ensures var t := Execute(s, LogoutActions(id, key));
      key in t.rows && t.rows[key] == s.rows[key].(status := Revoked) && forall i :: i in s.runs ==> i in t.runs && t.runs[i] == s.runs[i]
  {
    var all := LogoutActions(id, key);
    LogoutBegins(s, id, key);
    LogoutWrites(Apply(Apply(s, all[0]), all[1]), id, key);
    ExecuteFour(s, all[0], all[1], all[2], all[3]);
  }

  /** The refused replica is about to read again, its peer about to store. */
  lemma RaceReachesReread(now: int) returns (actions: seq<Action>)
    ensures Execute(Start(now), actions) == Race(now, Reread(true, 0), Store(1, 1), {0, 1})
  {
    var start := [RaceCreate(), Begin(0, 0, Authenticate), Begin(1, 0, Authenticate)];
    var b, c, d, e := Step(1, TokenExpired), Step(1, Tokens(1, 1)), Step(0, TokenExpired), Step(0, Rejected);
    RaceStarts(now);
    PeerHoldsCredential(now);
    FirstMoves(now, Verify, Store(1, 1), {0, 1}, TokenExpired, Token);
    FirstMoves(now, Token, Store(1, 1), {0, 1}, Rejected, Reread(true, 0));
    ExecuteOneMore(Start(now), start, b);
    ExecuteOneMore(Start(now), start + [b], c);
    ExecuteOneMore(Start(now), start + [b] + [c], d);
    ExecuteOneMore(Start(now), start + [b] + [c] + [d], e);
    actions := start + [b] + [c] + [d] + [e];
  }

  lemma PeerStores(now: int)
    ensures var s := Race(now, Reread(true, 0), Store(1, 1), {0, 1}); var t := Apply(s, Step(1, Fine));
      0 in t.rows && t.rows[0] == s.rows[0].(access := 1, refresh := 1) && t.clock == now
      && t.runs.Keys == {0, 1} && t.runs[0] == s.runs[0]
  {
    var s := Race(now, Reread(true, 0), Store(1, 1), {0, 1});
    assert Apply(s, Step(1, Fine)).runs.Keys == {0, 1};
  }

  /** A reachable history in which a request is answered with a session that was revoked before it was read. */
  lemma AnswersOnRevokedSession(now: int) returns (actions: seq<Action>)
    ensures var s := Execute(Start(now), actions);
      0 in s.runs && s.runs[0].request == Authenticate && s.runs[0].pc == Act && s.runs[0].peer
      && s.runs[0].row.status == Revoked
  {
    var before := RaceReachesReread(now);
    PeerStores(now);
    var stored := before + [Step(1, Fine)];
    ExecuteOneMore(Start(now), before, Step(1, Fine));
    var s := Execute(Start(now), stored);
    LogoutRevokes(s, 2, 0);
    ExecuteAppends(Start(now), stored, LogoutActions(2, 0));
    var closed := stored + LogoutActions(2, 0);
    var t := Execute(Start(now), closed);
    PeerRowIsNotRechecked(t, 0, Fine, None, false);
    ExecuteOneMore(Start(now), closed, Step(0, Fine));
    ExecuteOneMore(Start(now), closed + [Step(0, Fine)], Step(0, Claims(None, false)));
    actions := closed + [Step(0, Fine)] + [Step(0, Claims(None, false))];
    assert t.runs[0] == s.runs[0];
  }
}
