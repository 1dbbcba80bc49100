/** What holds of the session ledger over every interleaving of requests. */
module SessionSafety {
  import opened Outcomes
  import opened BrowserSession

  // ---- one row, one step ----

  function Rank(s: Status): nat { match s case PendingMfa => 0 case Active => 1 case Revoked => 2 case Expired => 2 }

  predicate SameIdentity(r: Row, q: Row) { r.owner == q.owner && r.absolute == q.absolute }

  /** A closed row is frozen; a live one keeps owner and absolute expiry, and its status only moves on. */
  predicate Advances(r: Row, q: Row) {
    r == q || (Live(r) && SameIdentity(r, q) && q.idle <= q.absolute && Rank(r.status) <= Rank(q.status))
  }

  /** Rows advance and no credential changes. */
  ghost predicate SoftAdvance(rows: Rows, rows': Rows) {
    rows'.Keys == rows.Keys && forall k :: k in rows ==> Advances(rows[k], rows'[k]) && rows'[k].refresh == rows[k].refresh
  }

  // ---- the invariant ----

  ghost predicate RowsOk(s: State) {
    forall k :: k in s.rows ==> s.rows[k].idle <= s.rows[k].absolute && s.rows[k].refresh in s.issued && s.rows[k].refresh !in s.retired
  }

  ghost predicate RowsDistinct(s: State) {
    forall k, l :: k in s.rows && l in s.rows && k != l ==> s.rows[k].refresh != s.rows[l].refresh
  }

  function InFlight(run: Run): Option<Cipher> {
    match run.pc case Store(_, c) => Some(c) case Write(_, c, _) => Some(c) case _ => None
  }

  predicate RunOk(s: State, run: Run) {
    run.key in s.rows && SameIdentity(run.base, s.rows[run.key]) && SameIdentity(run.row, s.rows[run.key])
  }

  ghost predicate RunsOk(s: State) { forall id :: id in s.runs ==> RunOk(s, s.runs[id]) }

  /** A credential in flight is nobody's yet: it was issued, is in no row and was never overwritten. */
  ghost predicate Unstored(s: State, c: Cipher) {
    c in s.issued && c !in s.retired && forall k :: k in s.rows ==> s.rows[k].refresh != c
  }

  ghost predicate FlightsOk(s: State) {
    forall id :: id in s.runs && InFlight(s.runs[id]).Some? ==> Unstored(s, InFlight(s.runs[id]).value)
  }

  ghost predicate FlightsDistinct(s: State) {
    forall i, j :: i in s.runs && j in s.runs && i != j && InFlight(s.runs[i]).Some? ==> InFlight(s.runs[i]) != InFlight(s.runs[j])
  }

  ghost predicate LogOk(s: State) {
    (forall i :: 0 <= i < |s.log| ==> s.log[i].from in s.retired)
    && forall i, j :: 0 <= i < j < |s.log| ==> s.log[i].from != s.log[j].from
  }

  ghost predicate Inv(s: State) {
    RowsOk(s) && RowsDistinct(s) && RunsOk(s) && FlightsOk(s) && FlightsDistinct(s) && LogOk(s) && s.retired <= s.issued
  }

  // ---- kinds of steps ----

  /** What every step does to the ledger: rows advance, and a ciphertext leaves its row only into retirement. */
  ghost predicate Progress(s: State, s': State) {
    s.retired <= s'.retired
    && forall k :: k in s.rows ==>
                     k in s'.rows && Advances(s.rows[k], s'.rows[k])
                     && (s'.rows[k].refresh == s.rows[k].refresh || s.rows[k].refresh in s'.retired)
  }


  /** A step of one run that leaves the ledger alone and drops or keeps nothing in flight. */
  ghost predicate OneRun(s: State, s': State, id: RunId) {
    id in s.runs && s'.runs.Keys == s.runs.Keys && forall i :: i in s.runs && i != id ==> s'.runs[i] == s.runs[i]
  }

  predicate SameRecords(s: State, s': State) { s'.issued == s.issued && s'.retired == s.retired && s'.log == s.log }

  /** The stepping run carries nothing, and what it read still has its row's identity. */
  ghost predicate Settles(s': State, id: RunId) { id in s'.runs && InFlight(s'.runs[id]).None? && RunOk(s', s'.runs[id]) }

  lemma SoftStepKeepsInv(s: State, s': State, id: RunId)
    requires Inv(s) && OneRun(s, s', id) && SameRecords(s, s') && SoftAdvance(s.rows, s'.rows) && Settles(s', id)
    ensures Inv(s') && Progress(s, s')
  {
    forall k | k in s'.rows ensures s'.rows[k].idle <= s'.rows[k].absolute && s'.rows[k].refresh == s.rows[k].refresh {
      assert Advances(s.rows[k], s'.rows[k]);
    }
    forall i | i in s'.runs ensures RunOk(s', s'.runs[i]) {
      if i != id { assert RunOk(s, s.runs[i]); assert Advances(s.rows[s.runs[i].key], s'.rows[s.runs[i].key]); }
    }
  }

  /** A fresh credential goes in flight with run `id`. */
  lemma IssueKeepsInv(s: State, s': State, id: RunId, c: Cipher)
    requires Inv(s) && OneRun(s, s', id) && c !in s.issued
    requires s'.rows == s.rows && s'.issued == s.issued + {c} && s'.retired == s.retired && s'.log == s.log
    requires InFlight(s'.runs[id]) == Some(c) && RunOk(s', s'.runs[id])
    ensures Inv(s') && Progress(s, s')
  {
    forall i | i in s'.runs ensures RunOk(s', s'.runs[i]) { if i != id { assert RunOk(s, s.runs[i]); } }
    forall i | i in s'.runs && InFlight(s'.runs[i]).Some? ensures Unstored(s', InFlight(s'.runs[i]).value) {
      if i != id { assert Unstored(s, InFlight(s.runs[i]).value); }
    }
    forall i, j | i in s'.runs && j in s'.runs && i != j && InFlight(s'.runs[i]).Some? ensures InFlight(s'.runs[i]) != InFlight(s'.runs[j]) {
      if j == id { assert Unstored(s, InFlight(s.runs[i]).value); }
      else if i == id { if InFlight(s.runs[j]).Some? { assert Unstored(s, InFlight(s.runs[j]).value); } }
    }
  }

  /** Run `id` stores the credential it had in flight into its row; the overwritten ciphertext is retired. */
  ghost predicate Stores(s: State, s': State, id: RunId, r: Row) {
    OneRun(s, s', id) && s.runs[id].key in s.rows
    && InFlight(s.runs[id]) == Some(r.refresh)
    && Advances(s.rows[s.runs[id].key], r)
    && s'.rows == s.rows[s.runs[id].key := r]
    && s'.issued == s.issued && s'.retired == s.retired + {s.rows[s.runs[id].key].refresh}
  }

  lemma StoreKeepsRows(s: State, s': State, id: RunId, r: Row)
    requires Inv(s) && Stores(s, s', id, r)
    ensures RowsOk(s') && RowsDistinct(s') && Progress(s, s') && s'.retired <= s'.issued
  {
    assert Unstored(s, r.refresh);
  }

  lemma StoreKeepsRuns(s: State, s': State, id: RunId, r: Row)
    requires Inv(s) && Stores(s, s', id, r) && Settles(s', id)
    ensures RunsOk(s') && FlightsDistinct(s')
  {
    forall i | i in s'.runs ensures RunOk(s', s'.runs[i]) { if i != id { assert RunOk(s, s.runs[i]); } }
    forall i, j | i in s'.runs && j in s'.runs && i != j && InFlight(s'.runs[i]).Some? ensures InFlight(s'.runs[i]) != InFlight(s'.runs[j]) {
      assert i != id;
    }
  }

  lemma StoreKeepsFlights(s: State, s': State, id: RunId, r: Row)
    requires Inv(s) && Stores(s, s', id, r) && Settles(s', id)
    ensures FlightsOk(s')
  {
    forall i | i in s'.runs && InFlight(s'.runs[i]).Some? ensures Unstored(s', InFlight(s'.runs[i]).value) {
      var c := InFlight(s'.runs[i]).value;
      assert i != id && s'.runs[i] == s.runs[i];
      assert Unstored(s, c) && c != r.refresh;
    }
  }

  lemma LogGrows(s: State, s': State, id: RunId, r: Row)
    requires Inv(s) && Stores(s, s', id, r)
    requires s'.log == s.log || s'.log == s.log + [Rotation(s.runs[id].key, s.rows[s.runs[id].key].refresh, r.refresh)]
    ensures LogOk(s')
  {
    var was := s.rows[s.runs[id].key].refresh;
    assert was !in s.retired;
    forall i | 0 <= i < |s'.log| ensures s'.log[i].from in s'.retired { if i < |s.log| { assert s'.log[i] == s.log[i]; } }
    forall i, j | 0 <= i < j < |s'.log| ensures s'.log[i].from != s'.log[j].from {
      assert s'.log[i] == s.log[i];
      if j < |s.log| { assert s'.log[j] == s.log[j]; }
    }
  }

  lemma StoreKeepsInv(s: State, s': State, id: RunId, r: Row)
    requires Inv(s) && Stores(s, s', id, r) && Settles(s', id)
    requires s'.log == s.log || s'.log == s.log + [Rotation(s.runs[id].key, s.rows[s.runs[id].key].refresh, r.refresh)]
    ensures Inv(s') && Progress(s, s')
  {
    StoreKeepsRows(s, s', id, r);
    StoreKeepsRuns(s, s', id, r);
    StoreKeepsFlights(s, s', id, r);
    LogGrows(s, s', id, r);
  }

  // ---- every step ----

  lemma GotoKeepsInv(s: State, id: RunId, pc: Pc)
    requires Inv(s) && id in s.runs && !pc.Store? && !pc.Write?
    ensures Inv(Goto(s, id, pc)) && Progress(s, Goto(s, id, pc))
  {
    assert RunOk(s, s.runs[id]);
    SoftStepKeepsInv(s, Goto(s, id, pc), id);
  }

  lemma AnswerKeepsInv(s: State, id: RunId, row: Row, peer: bool, pc: Pc)
    requires Inv(s) && id in s.runs && !pc.Store? && !pc.Write?
    requires s.runs[id].key in s.rows && SameIdentity(row, s.rows[s.runs[id].key])
    ensures Inv(Answer(s, id, row, peer, pc)) && Progress(s, Answer(s, id, row, peer, pc))
  {
    assert RunOk(s, s.runs[id]);
    SoftStepKeepsInv(s, Answer(s, id, row, peer, pc), id);
  }

  lemma IssuedKeepsInv(s: State, id: RunId, c: Cipher, pc: Pc)
    requires Inv(s) && id in s.runs && InFlight(s.runs[id].(pc := pc)) == Some(c)
    ensures Inv(Issue(s, id, c, pc)) && Progress(s, Issue(s, id, c, pc))
  {
    if c in s.issued { GotoKeepsInv(s, id, Done); }
    else {
      assert RunOk(s, s.runs[id]);
      IssueKeepsInv(s, Issue(s, id, c, pc), id, c);
    }
  }

  lemma CloseAdvances(rows: Rows, hit: (Key, Row) -> bool, status: Status)
    requires forall k :: k in rows ==> rows[k].idle <= rows[k].absolute
    requires status == Revoked || status == Expired
    ensures SoftAdvance(rows, Close(rows, hit, status))
  {
  }

  lemma WithRowsKeepsInv(s: State, rows: Rows, id: RunId)
    requires Inv(s) && id in s.runs && SoftAdvance(s.rows, rows)
    ensures Inv(WithRows(s, rows, id, Done)) && Progress(s, WithRows(s, rows, id, Done))
  {
    assert RunOk(s, s.runs[id]);
    assert Advances(s.rows[s.runs[id].key], rows[s.runs[id].key]);
    SoftStepKeepsInv(s, WithRows(s, rows, id, Done), id);
  }

  lemma CommitAdvances(s: State, id: RunId)
    requires Inv(s) && id in s.runs
    ensures SoftAdvance(s.rows, Committed(s, s.runs[id]))
  {
    var run := s.runs[id];
    assert RunOk(s, run);
    match run.request
    case Revoke(target) => CloseAdvances(s.rows, (k: Key, r: Row) => k == target && r.owner == run.row.owner, Revoked);
    case RevokeAll => CloseAdvances(s.rows, (k: Key, r: Row) => r.owner == run.row.owner, Revoked);
    case _ =>
  }

  lemma ClaimsAdvance(rows: Rows, key: Key, base: Row, family: Option<string>, aal2: bool)
    requires forall k :: k in rows ==> rows[k].idle <= rows[k].absolute
    ensures SoftAdvance(rows, ClaimsPatched(rows, key, base, family, aal2))
  {
  }

  lemma ClaimsKeepInv(s: State, t: State, id: RunId, family: Option<string>, aal2: bool)
    requires Inv(s) && id in s.runs && s.runs[id].pc == PatchClaims(family, aal2)
    requires var run := s.runs[id];
      t == Answer(s.(rows := ClaimsPatched(s.rows, run.key, run.base, family, aal2)), id,
                  run.row.(family := Or(family, run.base.family), aal2 := aal2), false, Act)
    ensures Inv(t) && Progress(s, t)
  {
    var run := s.runs[id];
    assert RunOk(s, run);
    ClaimsAdvance(s.rows, run.key, run.base, family, aal2);
    assert Advances(s.rows[run.key], t.rows[run.key]);
    SoftStepKeepsInv(s, t, id);
  }

  lemma StoreStep(s: State, id: RunId, reply: Reply)
    requires Inv(s) && id in s.runs && s.runs[id].pc.Store?
    ensures Inv(StepStore(s, id, reply)) && Progress(s, StepStore(s, id, reply))
  {
    var run := s.runs[id];
    assert RunOk(s, run);
    if !reply.Fault? && s.rows[run.key].status == Active && s.rows[run.key].refresh == run.base.refresh {
      var r := s.rows[run.key].(access := run.pc.access, refresh := run.pc.refresh);
      StoreKeepsInv(s, StepStore(s, id, reply), id, r);
    } else {
      GotoKeepsInv(s, id, if reply.Fault? then Done else Reread(false, 0));
    }
  }

  lemma VerifiedAdvances(run: Run, r: Row, now: int)
    requires run.pc.Write? && SameIdentity(run.row, r) && r.idle <= r.absolute
    requires r.status == if run.request.CompleteMfa? then PendingMfa else Active
    ensures Advances(r, Verified(run, r, now)) && Verified(run, r, now).refresh == run.pc.newRefresh
  {
  }

  lemma WriteStep(s: State, id: RunId, reply: Reply)
    requires Inv(s) && id in s.runs && s.runs[id].pc.Write?
    ensures Inv(StepWrite(s, id, reply)) && Progress(s, StepWrite(s, id, reply))
  {
    var run := s.runs[id];
    assert RunOk(s, run);
    var r := s.rows[run.key];
    if reply.Fault? || r.status != (if run.request.CompleteMfa? then PendingMfa else Active) {
      GotoKeepsInv(s, id, Done);
    } else {
      VerifiedAdvances(run, r, s.clock);
      ReplaceKeepsInv(s, id, Verified(run, r, s.clock));
    }
  }

  lemma ReplaceKeepsInv(s: State, id: RunId, row: Row)
    requires Inv(s) && id in s.runs && s.runs[id].key in s.rows && InFlight(s.runs[id]) == Some(row.refresh)
    requires Advances(s.rows[s.runs[id].key], row)
    ensures var t := Goto(Replace(s, s.runs[id].key, row), id, Done); Inv(t) && Progress(s, t)
  {
    assert RunOk(s, s.runs[id]);
    StoreKeepsInv(s, Goto(Replace(s, s.runs[id].key, row), id, Done), id, row);
  }

  /** What is in flight is not what the row holds. */
  lemma StoredIsNew(s: State, id: RunId)
    requires Inv(s) && id in s.runs && InFlight(s.runs[id]).Some?
    ensures s.runs[id].key in s.rows && s.rows[s.runs[id].key].refresh != InFlight(s.runs[id]).value
  {
    assert RunOk(s, s.runs[id]) && Unstored(s, InFlight(s.runs[id]).value);
  }

  lemma RereadStep(s: State, id: RunId, reply: Reply)
    requires Inv(s) && id in s.runs && s.runs[id].pc.Reread?
    ensures Inv(StepReread(s, id, reply)) && Progress(s, StepReread(s, id, reply))
  {
    var run := s.runs[id];
    assert RunOk(s, run);
    if !reply.Fault? && s.rows[run.key].refresh != run.base.refresh {
      AnswerKeepsInv(s, id, s.rows[run.key], true, VerifyPeer);
    } else {
      GotoKeepsInv(s, id, StepReread(s, id, reply).runs[id].pc);
    }
  }

  lemma ActStep(s: State, id: RunId, reply: Reply)
    requires Inv(s) && id in s.runs && s.runs[id].pc.Act?
    ensures Inv(StepAct(s, id, reply)) && Progress(s, StepAct(s, id, reply))
  {
    if NeedsFactor(s.runs[id].request) && reply.MfaTokens? {
      IssuedKeepsInv(s, id, reply.refresh, Write(reply.access, reply.refresh, reply.family));
    } else {
      GotoKeepsInv(s, id, AfterAct(s.runs[id], s.clock));
    }
  }

  lemma TokenStep(s: State, id: RunId, reply: Reply)
    requires Inv(s) && id in s.runs && s.runs[id].pc.Token?
    ensures Inv(StepToken(s, id, reply)) && Progress(s, StepToken(s, id, reply))
  {
    if reply.Tokens? { IssuedKeepsInv(s, id, reply.refresh, Store(reply.access, reply.refresh)); }
    else {
      GotoKeepsInv(s, id, Done);
      GotoKeepsInv(s, id, Reread(true, 0));
    }
  }

  lemma PatchStep(s: State, id: RunId, reply: Reply)
    requires Inv(s) && id in s.runs
    requires s.runs[id].pc.MarkExpired? || s.runs[id].pc.RevokeFamily? || s.runs[id].pc.Commit?
    ensures Inv(StepRun(s, id, reply)) && Progress(s, StepRun(s, id, reply))
  {
    var run := s.runs[id];
    if reply.Fault? {
      GotoKeepsInv(s, id, Done);
    } else if run.pc.Commit? {
      CommitAdvances(s, id);
      WithRowsKeepsInv(s, Committed(s, run), id);
    } else if run.pc.RevokeFamily? {
      CloseAdvances(s.rows, (k: Key, r: Row) => SameFamily(run.base, run.key, k, r), Revoked);
      WithRowsKeepsInv(s, FamilyRevoked(s.rows, run.key, run.base), id);
    } else {
      CloseAdvances(s.rows, (k: Key, r: Row) => k == run.key, Expired);
      WithRowsKeepsInv(s, MarkedExpired(s.rows, run.key), id);
    }
  }

  lemma VerifyStep(s: State, id: RunId, reply: Reply)
    requires Inv(s) && id in s.runs
    requires s.runs[id].pc.Verify? || s.runs[id].pc.VerifyStored? || s.runs[id].pc.VerifyPeer?
    ensures Inv(StepRun(s, id, reply)) && Progress(s, StepRun(s, id, reply))
  {
    var run := s.runs[id];
    assert RunOk(s, run);
    if run.pc.Verify? && reply.Claims? { AnswerKeepsInv(s, id, run.base, false, Act); }
    else { GotoKeepsInv(s, id, StepRun(s, id, reply).runs[id].pc); }
  }

  lemma ClaimsStep(s: State, id: RunId, reply: Reply)
    requires Inv(s) && id in s.runs && s.runs[id].pc.PatchClaims?
    ensures Inv(StepRun(s, id, reply)) && Progress(s, StepRun(s, id, reply))
  {
    if reply.Fault? { GotoKeepsInv(s, id, Done); }
    else { ClaimsKeepInv(s, StepRun(s, id, reply), id, s.runs[id].pc.family, s.runs[id].pc.aal2); }
  }

  lemma StepKeepsInv(s: State, id: RunId, reply: Reply)
    requires Inv(s) && id in s.runs
    ensures Inv(StepRun(s, id, reply)) && Progress(s, StepRun(s, id, reply))
  {
    var pc := s.runs[id].pc;
    if pc.Token? || pc.Reread? || pc.Store? || pc.Act? || pc.Write? { CredentialStep(s, id, reply); }
    else if pc.PatchClaims? { ClaimsStep(s, id, reply); }
    else if pc.Verify? || pc.VerifyStored? || pc.VerifyPeer? { VerifyStep(s, id, reply); }
    else if pc.Done? { NothingMoves(s); }
    else { PatchStep(s, id, reply); }
  }

  lemma CredentialStepIs(s: State, id: RunId, reply: Reply) returns (t: State)
    requires id in s.runs
    requires var pc := s.runs[id].pc; pc.Token? || pc.Reread? || pc.Store? || pc.Act? || pc.Write?
    ensures t == StepRun(s, id, reply)
    ensures t == if s.runs[id].pc.Token? then StepToken(s, id, reply) else if s.runs[id].pc.Reread? then StepReread(s, id, reply)
                 else if s.runs[id].pc.Store? then StepStore(s, id, reply) else if s.runs[id].pc.Act? then StepAct(s, id, reply)
                 else StepWrite(s, id, reply)
  {
    t := StepRun(s, id, reply);
  }

  lemma CredentialStep(s: State, id: RunId, reply: Reply)
    requires Inv(s) && id in s.runs
    requires var pc := s.runs[id].pc; pc.Token? || pc.Reread? || pc.Store? || pc.Act? || pc.Write?
    ensures Inv(StepRun(s, id, reply)) && Progress(s, StepRun(s, id, reply))
  {
    var t := CredentialStepIs(s, id, reply);
    var pc := s.runs[id].pc;
    if pc.Token? { TokenStep(s, id, reply); }
    else if pc.Reread? { RereadStep(s, id, reply); }
    else if pc.Store? { StoreStep(s, id, reply); }
    else if pc.Act? { ActStep(s, id, reply); }
    else { WriteStep(s, id, reply); }
  }

  lemma NothingMoves(s: State)
    ensures Progress(s, s)
  {
  }

  lemma CreateKeepsInv(s: State, a: Action)
    requires Inv(s) && a.Create?
    ensures Inv(Apply(s, a)) && Progress(s, Apply(s, a))
  {
    var s' := Apply(s, a);
    if a.key !in s.rows && a.refresh !in s.issued {
      forall i | i in s'.runs ensures RunOk(s', s'.runs[i]) { assert RunOk(s, s.runs[i]); }
      forall i | i in s'.runs && InFlight(s'.runs[i]).Some? ensures Unstored(s', InFlight(s'.runs[i]).value) {
        assert Unstored(s, InFlight(s.runs[i]).value);
      }
    }
  }

  lemma NewRunKeepsInv(s: State, s': State, id: RunId, run: Run)
    requires Inv(s) && id !in s.runs && s' == s.(runs := s.runs[id := run]) && RunOk(s, run) && InFlight(run).None?
    ensures Inv(s') && Progress(s, s')
  {
    forall i | i in s'.runs ensures RunOk(s', s'.runs[i]) { if i != id { assert RunOk(s, s.runs[i]); } }
    forall i | i in s'.runs && InFlight(s'.runs[i]).Some? ensures Unstored(s', InFlight(s'.runs[i]).value) {
      assert i != id;
      assert Unstored(s, InFlight(s.runs[i]).value);
    }
  }

  lemma BeginKeepsInv(s: State, a: Action)
    requires Inv(s) && a.Begin?
    ensures Inv(Apply(s, a)) && Progress(s, Apply(s, a))
  {
    NothingMoves(s);
    if a.run !in s.runs && a.key in s.rows {
      var r := s.rows[a.key];
      var pc := FirstPc(a.request, r, s.clock);
      if pc.Some? { NewRunKeepsInv(s, Apply(s, a), a.run, Run(a.key, a.request, s.clock, r, r, false, pc.value)); }
    }
  }

  lemma TickKeepsInv(s: State, ms: nat)
    requires Inv(s)
    ensures Inv(s.(clock := s.clock + ms)) && Progress(s, s.(clock := s.clock + ms))
  {
    var s' := s.(clock := s.clock + ms);
    forall i | i in s'.runs ensures RunOk(s', s'.runs[i]) { assert RunOk(s, s.runs[i]); }
    forall i | i in s'.runs && InFlight(s'.runs[i]).Some? ensures Unstored(s', InFlight(s'.runs[i]).value) {
      assert Unstored(s, InFlight(s.runs[i]).value);
    }
  }

  lemma ApplyKeepsInv(s: State, a: Action)
    requires Inv(s)
    ensures Inv(Apply(s, a)) && Progress(s, Apply(s, a))
  {
    NothingMoves(s);
    match a
    case Tick(ms) => TickKeepsInv(s, ms);
    case Create(_, _, _, _, _, _, _, _) => CreateKeepsInv(s, a);
    case Begin(_, _, _) => BeginKeepsInv(s, a);
    case Step(id, reply) => if id in s.runs { StepKeepsInv(s, id, reply); }
  }

  lemma {:induction false} ReachableInv(s: State, actions: seq<Action>)
    requires Inv(s)
    ensures Inv(Execute(s, actions))
  {
    if actions != [] {
      ReachableInv(s, actions[..|actions| - 1]);
      ApplyKeepsInv(Execute(s, actions[..|actions| - 1]), actions[|actions| - 1]);
    }
  }
}
