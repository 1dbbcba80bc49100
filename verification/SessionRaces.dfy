/** The two races of the session ledger, each with the exact condition on histories under which it is lost. */
module SessionRaces {
  import opened BrowserSession
  import opened SessionSafety
  import opened SessionHistory

  // ---- credentials change hands only when one lands ----

  /** The action stores a new credential in the row: a refresh's swap or a second factor's write. */
  predicate Lands(s: State, a: Action, key: Key) {
    a.Step? && a.run in s.runs && s.runs[a.run].key == key && (s.runs[a.run].pc.Store? || s.runs[a.run].pc.Write?)
    && key in s.rows && key in Apply(s, a).rows && Apply(s, a).rows[key].refresh != s.rows[key].refresh
  }

  lemma PatchesKeepCredentials(s: State, id: RunId, reply: Reply, k: Key)
    requires id in s.runs && k in s.rows
    requires var pc := s.runs[id].pc; pc.MarkExpired? || pc.RevokeFamily? || pc.Commit? || pc.PatchClaims?
    ensures var t := StepRun(s, id, reply); k in t.rows && t.rows[k].refresh == s.rows[k].refresh
  {
  }

  lemma OnlyLandingsChange(s: State, a: Action, key: Key)
    requires key in s.rows && !Lands(s, a, key)
    ensures key in Apply(s, a).rows && Apply(s, a).rows[key].refresh == s.rows[key].refresh
  {
    if a.Step? && a.run in s.runs {
      var pc := s.runs[a.run].pc;
      if pc.MarkExpired? || pc.RevokeFamily? || pc.Commit? || pc.PatchClaims? { PatchesKeepCredentials(s, a.run, a.reply, key); }
      else if pc.Store? || pc.Write? { StoresKeepRow(s, a.run, a.reply, key); }
      else { OthersActivateNothing(s, a.run, a.reply); }
    }
  }

  lemma StoresKeepRow(s: State, id: RunId, reply: Reply, k: Key)
    requires id in s.runs && k in s.rows && (s.runs[id].pc.Store? || s.runs[id].pc.Write?)
    ensures k in StepRun(s, id, reply).rows
  {
  }

  predicate LandsAt(s: State, actions: seq<Action>, key: Key, k: nat) {
    k < |actions| && Lands(Execute(s, actions[..k]), actions[k], key)
  }

  /** While nothing lands, the row keeps its credential. */
  lemma {:induction false} QuietKeepsCredential(s: State, actions: seq<Action>, key: Key, j: nat, m: nat)
    requires j <= m <= |actions| && key in Execute(s, actions[..j]).rows
    requires forall k: nat :: j <= k < m ==> !LandsAt(s, actions, key, k)
    ensures var u, t := Execute(s, actions[..j]), Execute(s, actions[..m]); key in t.rows && t.rows[key].refresh == u.rows[key].refresh
  {
    if j < m {
      QuietKeepsCredential(s, actions, key, j, m - 1);
      ExecutePrefix(s, actions, m - 1);
      assert !LandsAt(s, actions, key, m - 1);
      OnlyLandingsChange(Execute(s, actions[..m - 1]), actions[m - 1], key);
    }
  }

  lemma ExecuteSplit(s: State, actions: seq<Action>, j: nat, m: nat)
    requires j <= m <= |actions|
    ensures Execute(s, actions[..m]) == Execute(Execute(s, actions[..j]), actions[j..m])
  {
    ExecuteAppends(s, actions[..j], actions[j..m]);
    assert actions[..j] + actions[j..m] == actions[..m];
  }

  /** A credential held at two positions of a history was held at every position between them. */
  lemma HeldThroughout(now: int, actions: seq<Action>, key: Key, j: nat, k: nat, m: nat)
    requires j <= k <= m <= |actions| && key in Execute(Start(now), actions[..j]).rows
    requires var u, t := Execute(Start(now), actions[..j]), Execute(Start(now), actions[..m]);
      key in t.rows && t.rows[key].refresh == u.rows[key].refresh
    ensures var u, v := Execute(Start(now), actions[..j]), Execute(Start(now), actions[..k]);
      key in v.rows && v.rows[key].refresh == u.rows[key].refresh
  {
    ExecuteSplit(Start(now), actions, j, k);
    ExecuteSplit(Start(now), actions, k, m);
    CredentialNeverReturns(now, actions[..j], actions[j..k], actions[k..m], key);
  }

  // ---- what a run was handed never changes ----

  predicate SameHandle(run: Run, r: Run) { r.key == run.key && r.base == run.base && r.request == run.request }

  lemma CredentialStepsKeepBase(s: State, id: RunId, reply: Reply)
    requires id in s.runs
    requires var pc := s.runs[id].pc; pc.Token? || pc.Reread? || pc.Store? || pc.Act? || pc.Write?
    ensures var t := StepRun(s, id, reply); id in t.runs && SameHandle(s.runs[id], t.runs[id])
  {
  }

  lemma StepKeepsBase(s: State, id: RunId, reply: Reply)
    requires id in s.runs
    ensures var t := StepRun(s, id, reply); id in t.runs && SameHandle(s.runs[id], t.runs[id])
  {
    var pc := s.runs[id].pc;
    if pc.Token? || pc.Reread? || pc.Store? || pc.Act? || pc.Write? { CredentialStepsKeepBase(s, id, reply); }
  }

  lemma {:induction false} BaseStays(s: State, actions: seq<Action>, id: RunId, j: nat)
    requires j <= |actions| && id in Execute(s, actions[..j]).runs
    ensures var u, t := Execute(s, actions[..j]), Execute(s, actions);
      id in t.runs && SameHandle(u.runs[id], t.runs[id])
    decreases |actions|
  {
    if j == |actions| {
      assert actions[..j] == actions;
    } else {
      var before, a := actions[..|actions| - 1], actions[|actions| - 1];
      assert before[..j] == actions[..j] && before + [a] == actions;
      BaseStays(s, before, id, j);
      ExecuteOneMore(s, before, a);
      var t := Execute(s, before);
      if a.Step? && a.run == id { StepKeepsBase(t, id, a.reply); } else { OthersStay(t, a, id); }
    }
  }

  // ---- the race of the revocation ----

  ghost predicate LandedSince(s: State, actions: seq<Action>, key: Key, j: nat) {
    exists k: nat :: j < k && LandsAt(s, actions, key, k)
  }

  lemma RereadDoesNotLand(s: State, actions: seq<Action>, id: RunId, j: nat, count: nat, key: Key)
    requires SeenUnchangedAt(s, actions, id, j, count)
    ensures !LandsAt(s, actions, key, j)
  {
  }

  /**
   * When a refused refresh is about to revoke its family, the row holds another credential than the refused one
   * exactly when a rotation or a second factor's credential landed in it after the fourth re-read, at `j`.
   */
  lemma RevocationMeetsNewCredentialIff(now: int, actions: seq<Action>, id: RunId, j: nat)
    requires id in Execute(Start(now), actions).runs && SeenUnchangedAt(Start(now), actions, id, j, REREADS - 1)
    ensures var t := Execute(Start(now), actions); var key := t.runs[id].key;
      key in t.rows && (t.rows[key].refresh != t.runs[id].base.refresh <==> LandedSince(Start(now), actions, key, j))
  {
    var s, n := Start(now), |actions|;
    BaseStays(s, actions, id, j);
    assert actions[..n] == actions;
    var key := Execute(s, actions).runs[id].key;
    if LandedSince(s, actions, key, j) {
      var k: nat :| j < k && LandsAt(s, actions, key, k);
      RowsStay(now, actions, key, j);
      LandingIsForGood(now, actions, key, j, k);
    } else {
      forall k: nat | j <= k < n ensures !LandsAt(s, actions, key, k) {
        if k == j { RereadDoesNotLand(s, actions, id, j, REREADS - 1, key); }
      }
      QuietKeepsCredential(s, actions, key, j, n);
    }
  }

  lemma RowsStay(now: int, actions: seq<Action>, key: Key, j: nat)
    requires j <= |actions| && key in Execute(Start(now), actions[..j]).rows
    ensures key in Execute(Start(now), actions).rows
  {
    ExecuteSplit(Start(now), actions, j, |actions|);
    assert actions[..|actions|] == actions;
    ReachableIsInv(now, actions[..j], Execute(Start(now), actions[..j]));
    RunsProgress(Execute(Start(now), actions[..j]), actions[j..]);
    assert actions[j..|actions|] == actions[j..];
  }

  lemma LandingIsForGood(now: int, actions: seq<Action>, key: Key, j: nat, k: nat)
    requires j < k && LandsAt(Start(now), actions, key, k)
    requires key in Execute(Start(now), actions[..j]).rows && key in Execute(Start(now), actions).rows
    ensures Execute(Start(now), actions).rows[key].refresh != Execute(Start(now), actions[..j]).rows[key].refresh
  {
    var n := |actions|;
    assert actions[..n] == actions;
    if Execute(Start(now), actions).rows[key].refresh == Execute(Start(now), actions[..j]).rows[key].refresh {
      HeldThroughout(now, actions, key, j, k, n);
      HeldThroughout(now, actions, key, j, k + 1, n);
      ExecutePrefix(Start(now), actions, k);
    }
  }

  /** ... and the revocation then takes that credential away exactly when the row is still of the family and live. */
  lemma RevocationLosesCredentialIff(now: int, actions: seq<Action>, id: RunId, j: nat)
    requires id in Execute(Start(now), actions).runs && SeenUnchangedAt(Start(now), actions, id, j, REREADS - 1)
    requires Execute(Start(now), actions).runs[id].pc.RevokeFamily?
    ensures var t := Execute(Start(now), actions); var u := Apply(t, Step(id, Fine)); var run := t.runs[id];
      run.key in t.rows && run.key in u.rows
      && (Live(t.rows[run.key]) && !Live(u.rows[run.key]) && u.rows[run.key].refresh != run.base.refresh <==>
          LandedSince(Start(now), actions, run.key, j) && Live(t.rows[run.key]) && SameFamily(run.base, run.key, run.key, t.rows[run.key]))
  {
    RevocationMeetsNewCredentialIff(now, actions, id, j);
    FamilyRevocationIsExact(Execute(Start(now), actions), id, Execute(Start(now), actions).runs[id].key);
  }

  // ---- the race of the answer ----

  /** At position `j` run `id` found another credential in its row and took the row over from the peer. */
  predicate TakesOverAt(s: State, actions: seq<Action>, id: RunId, j: nat) {
    j < |actions| && actions[j].Step? && actions[j].run == id && !actions[j].reply.Fault?
    && var t := Execute(s, actions[..j]);
       id in t.runs && t.runs[id].pc.Reread? && t.runs[id].key in t.rows && t.rows[t.runs[id].key].refresh != t.runs[id].base.refresh
  }

  /** The row read then. */
  function TakenOver(s: State, actions: seq<Action>, id: RunId, j: nat): Row
    requires TakesOverAt(s, actions, id, j)
  {
    Execute(s, actions[..j]).rows[Execute(s, actions[..j]).runs[id].key]
  }

  predicate AnswersWith(run: Run, row: Row) {
    run.peer && run.row == row && (run.pc.VerifyPeer? || run.pc.Act? || run.pc.Write? || run.pc.Commit? || run.pc.Done?)
  }

  lemma AnswerStays(s: State, id: RunId, reply: Reply, row: Row)
    requires id in s.runs && AnswersWith(s.runs[id], row)
    ensures id in StepRun(s, id, reply).runs && AnswersWith(StepRun(s, id, reply).runs[id], row)
  {
  }

  lemma {:induction false} TakenOverStays(s: State, actions: seq<Action>, id: RunId, j: nat)
    requires TakesOverAt(s, actions, id, j)
    ensures id in Execute(s, actions).runs && AnswersWith(Execute(s, actions).runs[id], TakenOver(s, actions, id, j))
    decreases |actions|
  {
    var before, a := actions[..|actions| - 1], actions[|actions| - 1];
    assert before + [a] == actions;
    ExecuteOneMore(s, before, a);
    if j < |before| {
      assert before[..j] == actions[..j];
      assert TakesOverAt(s, before, id, j);
      TakenOverStays(s, before, id, j);
      var t := Execute(s, before);
      if a.Step? && a.run == id { AnswerStays(t, id, a.reply, TakenOver(s, actions, id, j)); } else { OthersStay(t, a, id); }
    }
  }

  lemma OtherStepsAreNoPeers(s: State, id: RunId, reply: Reply)
    requires id in s.runs && !s.runs[id].peer && !s.runs[id].pc.Reread?
    ensures id in StepRun(s, id, reply).runs && !StepRun(s, id, reply).runs[id].peer
  {
    var pc := s.runs[id].pc;
    if pc.Token? || pc.Store? || pc.Act? || pc.Write? { CredentialStepsAreNoPeers(s, id, reply); }
  }

  lemma CredentialStepsAreNoPeers(s: State, id: RunId, reply: Reply)
    requires id in s.runs && !s.runs[id].peer
    requires var pc := s.runs[id].pc; pc.Token? || pc.Store? || pc.Act? || pc.Write?
    ensures id in StepRun(s, id, reply).runs && !StepRun(s, id, reply).runs[id].peer
  {
  }

  lemma RereadPeers(s: State, id: RunId, reply: Reply)
    requires id in s.runs && !s.runs[id].peer && s.runs[id].pc.Reread?
    ensures StepRun(s, id, reply).runs[id].peer ==>
      !reply.Fault? && s.runs[id].key in s.rows && s.rows[s.runs[id].key].refresh != s.runs[id].base.refresh
  {
  }

  /** Only a take-over makes an answer a peer's. */
  lemma {:induction false} PeerWasTakenOver(now: int, actions: seq<Action>, id: RunId) returns (j: nat)
    requires id in Execute(Start(now), actions).runs && Execute(Start(now), actions).runs[id].peer
    ensures TakesOverAt(Start(now), actions, id, j)
  {
    var before, a := actions[..|actions| - 1], actions[|actions| - 1];
    var t := Execute(Start(now), before);
    assert before + [a] == actions;
    ExecuteOneMore(Start(now), before, a);
    if id in t.runs && t.runs[id].peer {
      j := PeerWasTakenOver(now, before, id);
      assert before[..j] == actions[..j];
    } else {
      j := |actions| - 1;
      if id in t.runs {
        if a.Step? && a.run == id {
          if t.runs[id].pc.Reread? { RereadPeers(t, id, a.reply); } else { OtherStepsAreNoPeers(t, id, a.reply); }
        } else {
          OthersStay(t, a, id);
        }
      }
    }
  }

  /** The row a run first read is a past of the row as it is now. */
  predicate ReadPast(s: State, id: RunId) {
    id in s.runs && s.runs[id].key in s.rows && Rank(s.runs[id].base.status) <= Rank(s.rows[s.runs[id].key].status)
  }

  lemma NewRunReadsNow(s: State, a: Action, id: RunId)
    requires id !in s.runs && id in Apply(s, a).runs
    ensures ReadPast(Apply(s, a), id)
  {
  }

  lemma SameHandleLater(s: State, a: Action, id: RunId)
    requires id in s.runs
    ensures id in Apply(s, a).runs && SameHandle(s.runs[id], Apply(s, a).runs[id])
  {
    if a.Step? && a.run == id { StepKeepsBase(s, id, a.reply); } else { OthersStay(s, a, id); }
  }

  lemma PastStaysPast(s: State, t: State, id: RunId)
    requires ReadPast(s, id) && Progress(s, t) && id in t.runs && SameHandle(s.runs[id], t.runs[id])
    ensures ReadPast(t, id)
  {
    assert Advances(s.rows[s.runs[id].key], t.rows[s.runs[id].key]);
  }

  lemma {:induction false} BaseIsPast(now: int, actions: seq<Action>, id: RunId)
    requires id in Execute(Start(now), actions).runs
    ensures ReadPast(Execute(Start(now), actions), id)
  {
    var before, a := actions[..|actions| - 1], actions[|actions| - 1];
    var t := Execute(Start(now), before);
    assert before + [a] == actions;
    ExecuteOneMore(Start(now), before, a);
    if id in t.runs {
      BaseIsPast(now, before, id);
      ReachableIsInv(now, before, t);
      ApplyKeepsInv(t, a);
      SameHandleLater(t, a, id);
      PastStaysPast(t, Apply(t, a), id);
    } else {
      NewRunReadsNow(t, a, id);
    }
  }

  ghost predicate TookOverClosedRow(s: State, actions: seq<Action>, id: RunId) {
    exists j: nat :: TakesOverAt(s, actions, id, j) && !Live(TakenOver(s, actions, id, j))
  }

  /**
   * A request answered by authentication is answered with a row that is not active exactly when that row was taken
   * over from a peer's refresh and was already expired or revoked when it was re-read.
   */
  lemma AnswerIsClosedIff(now: int, actions: seq<Action>, id: RunId)
    requires var t := Execute(Start(now), actions); id in t.runs && t.runs[id].pc == Act && !t.runs[id].request.CompleteMfa?
    ensures Execute(Start(now), actions).runs[id].row.status != Active <==> TookOverClosedRow(Start(now), actions, id)
  {
    var s, run := Start(now), Execute(Start(now), actions).runs[id];
    AnswerWasActive(now, actions, id);
    if run.row.status != Active {
      var j := PeerWasTakenOver(now, actions, id);
      TakenOverStays(s, actions, id, j);
      BaseStays(s, actions, id, j);
      BaseIsPast(now, actions[..j], id);
      assert !Live(TakenOver(s, actions, id, j));
    }
    forall j: nat | TakesOverAt(s, actions, id, j) && !Live(TakenOver(s, actions, id, j)) ensures run.row.status != Active {
      TakenOverStays(s, actions, id, j);
    }
  }
}
