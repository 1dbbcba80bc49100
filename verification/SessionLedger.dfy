/** The ledger as the session manager updates it: conditional patches on one table, and the re-read loop. */
module SessionLedger {
  import opened Outcomes
  import opened BrowserSession
  import opened SessionSafety
  import opened SessionHistory

  predicate Rotated(row: Option<Row>, previous: Cipher) { row.Some? && row.value.refresh != previous }

  function ReadRow(rows: Rows, key: Key): Option<Row> { if key in rows then Some(rows[key]) else None }

  /** Up to four durable reads, each of the table as it is by then: the first one that shows a rotation, else the last. */
  method RowAfterPeerRefresh(tables: seq<Rows>, key: Key, previous: Cipher) returns (latest: Option<Row>)
    requires |tables| == REREADS
    ensures Rotated(latest, previous) <==> exists i :: 0 <= i < REREADS && Rotated(ReadRow(tables[i], key), previous)
    ensures Rotated(latest, previous) ==>
      exists i :: 0 <= i < REREADS && latest == ReadRow(tables[i], key)
                  && forall j :: 0 <= j < i ==> !Rotated(ReadRow(tables[j], key), previous)
    ensures !Rotated(latest, previous) ==> latest == ReadRow(tables[REREADS - 1], key)
  {
    latest := None;
    for i := 0 to REREADS
      invariant forall j :: 0 <= j < i ==> !Rotated(ReadRow(tables[j], key), previous)
      invariant i > 0 ==> latest == ReadRow(tables[i - 1], key)
    {
      latest := ReadRow(tables[i], key);
      if Rotated(latest, previous) { return; }
    }
  }

  lemma FamilyOf(rows: Rows, key: Key, base: Row)
    requires base.family.Some?
    ensures FamilyRevoked(rows, key, base) == map k | k in rows ::
      if Live(rows[k]) && rows[k].owner == base.owner && rows[k].family == base.family then rows[k].(status := Revoked) else rows[k]
  {
  }

  lemma AloneOf(rows: Rows, key: Key, base: Row)
    requires base.family.None?
    ensures FamilyRevoked(rows, key, base) == if key in rows && Live(rows[key]) then rows[key := rows[key].(status := Revoked)] else rows
  {
  }

  class Ledger {
    var rows: Rows

    /** The table keeps its expiry constraint. */
    ghost predicate Valid()
      reads this
    {
      forall k :: k in rows ==> rows[k].idle <= rows[k].absolute
    }

    constructor ()
      ensures Valid() && rows == map[]
    {
      rows := map[];
    }

    /** The compare-and-swap of a refresh: the stored row comes back, or nothing when another credential got there first. */
    method StoreRotation(key: Key, previous: Cipher, access: Cipher, refresh: Cipher) returns (stored: Option<Row>)
      requires Valid()
      modifies this
      ensures Valid() && rows == Swapped(old(rows), key, previous, access, refresh)
      ensures stored == if Swappable(old(rows), key, previous) then ReadRow(rows, key) else None
    {
      if key !in rows || rows[key].status != Active || rows[key].refresh != previous { return None; }
      stored := Some(rows[key].(access := access, refresh := refresh));
      rows := rows[key := stored.value];
    }

    method PersistRefreshRejection(key: Key, base: Row)
      requires Valid()
      modifies this
      ensures Valid() && rows == FamilyRevoked(old(rows), key, base) && SoftAdvance(old(rows), rows)
    {
      CloseAdvances(rows, (k: Key, r: Row) => SameFamily(base, key, k, r), Revoked);
      if base.family.Some? {
        FamilyOf(rows, key, base);
        rows := map k | k in rows ::
          if Live(rows[k]) && rows[k].owner == base.owner && rows[k].family == base.family then rows[k].(status := Revoked) else rows[k];
      } else {
        AloneOf(rows, key, base);
        if key in rows && Live(rows[key]) { rows := rows[key := rows[key].(status := Revoked)]; }
      }
    }

    /** Marks the row expired if it is still live, and says whether it did. */
    method MarkRowExpired(key: Key) returns (marked: bool)
      requires Valid()
      modifies this
      ensures Valid() && rows == MarkedExpired(old(rows), key) && SoftAdvance(old(rows), rows)
      ensures marked <==> key in old(rows) && Live(old(rows)[key])
    {
      CloseAdvances(rows, (k: Key, r: Row) => k == key, Expired);
      marked := key in rows && rows[key].status in {Active, PendingMfa};
      if marked { rows := rows[key := rows[key].(status := Expired)]; }
    }

    /** Moves the idle expiry of an active row, never past the absolute expiry it was authenticated with. */
    method TouchRow(key: Key, row: Row, now: int) returns (touched: bool)
      requires Valid() && key in rows && SameIdentity(row, rows[key])
      modifies this
      ensures Valid() && rows == Touched(old(rows), key, row, now) && SoftAdvance(old(rows), rows)
      ensures touched <==> old(rows)[key].status == Active
    {
      touched := rows[key].status == Active;
      if touched { rows := rows[key := rows[key].(lastSeen := now, idle := Min(now + IDLE_TTL, row.absolute))]; }
    }
  }

  /** What the methods leave is what the interleaved requests leave, step by step. */
  lemma LedgerFollowsSteps(s: State, id: RunId)
    requires id in s.runs
    ensures var run, t := s.runs[id], StepRun(s, id, Fine);
      && (run.pc.Store? ==> t.rows == Swapped(s.rows, run.key, run.base.refresh, run.pc.access, run.pc.refresh))
      && (run.pc.RevokeFamily? ==> t.rows == FamilyRevoked(s.rows, run.key, run.base))
      && (run.pc.MarkExpired? ==> t.rows == MarkedExpired(s.rows, run.key))
      && (run.pc.Commit? && run.request.Touch? ==> t.rows == Touched(s.rows, run.key, run.row, s.clock))
  {
  }

  /**
   * A rotation that came back stored is the row's own: over every history, the request that stored it started from
   * the ciphertext it replaced, and no earlier rotation had started from that one.
   */
  lemma StoredRotationIsTheFirst(now: int, actions: seq<Action>, id: RunId)
    requires var s := Execute(Start(now), actions); id in s.runs && s.runs[id].pc.Store?
    requires var s := Execute(Start(now), actions); Swappable(s.rows, s.runs[id].key, s.runs[id].base.refresh)
    ensures var s := Execute(Start(now), actions); var run := s.runs[id];
      && ReadRow(StepRun(s, id, Fine).rows, run.key) == Some(s.rows[run.key].(access := run.pc.access, refresh := run.pc.refresh))
      && forall i | 0 <= i < |s.log| :: s.log[i].from != run.base.refresh
  {
    var s := Execute(Start(now), actions);
    ReachableIsInv(now, actions, s);
    LedgerFollowsSteps(s, id);
  }
}
