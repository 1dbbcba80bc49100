/**
 * The browser session ledger: requests of several replicas interleaved at their await points. A row
 * is addressed by one key, standing for its id and its handle hash, both unique and immutable.
 */
module BrowserSession {
  import opened Outcomes

  type Key = nat
  type RunId = nat
  /** An encrypted credential: every encryption draws a new random vector. */
  type Cipher = nat

  datatype Status = PendingMfa | Active | Revoked | Expired

  datatype Row = Row(owner: string, access: Cipher, refresh: Cipher, family: Option<string>, aal2: bool,
                     status: Status, lastSeen: int, idle: int, absolute: int)

  type Rows = map<Key, Row>

  const IDLE_TTL := 12 * 60 * 60 * 1000
  const PENDING_TTL := 5 * 60 * 1000
  const TOUCH_INTERVAL := 60_000
  const REREADS := 4

  datatype Request = Authenticate | Touch | CompleteMfa | StepUp | Revoke(target: Key) | RevokeAll

  /** The call a request makes next. */
  datatype Pc =
    | MarkExpired
    | Verify
    | Token
    | Reread(rejected: bool, count: nat)
    | RevokeFamily
    | Store(access: Cipher, refresh: Cipher)
    | VerifyStored
    | PatchClaims(family: Option<string>, aal2: bool)
    | VerifyPeer
    | Act
    | Write(newAccess: Cipher, newRefresh: Cipher, newFamily: Option<string>)
    | Commit
    | Done

  /** `base` is the row first read, at `readAt`; `row` the one authentication answers with. */
  datatype Run = Run(key: Key, request: Request, readAt: int, base: Row, row: Row, peer: bool, pc: Pc)

  datatype Rotation = Rotation(key: Key, from: Cipher, to: Cipher)

  /** `issued`, `retired` and `log` record history: ciphertexts ever made, ever overwritten, and refresh rotations. */
  datatype State = State(rows: Rows, runs: map<RunId, Run>, clock: int, issued: set<Cipher>, retired: set<Cipher>, log: seq<Rotation>)

  /** What the far side of a call answers. */
  datatype Reply =
    | Fault | Fine | Unavailable | TokenExpired | Rejected | NoTokens
    | Claims(family: Option<string>, aal2: bool)
    | Tokens(access: Cipher, refresh: Cipher)
    | MfaTokens(access: Cipher, refresh: Cipher, family: Option<string>)

  datatype Action =
    | Tick(ms: nat)
    | Create(key: Key, owner: string, access: Cipher, refresh: Cipher, family: Option<string>, aal2: bool, mfa: bool, duration: nat)
    | Begin(run: RunId, key: Key, request: Request)
    | Step(run: RunId, reply: Reply)

  // ---- rows ----

  predicate Live(r: Row) { r.status == Active || r.status == PendingMfa }

  function Min(a: int, b: int): int { if a < b then a else b }

  function Or(a: Option<string>, b: Option<string>): Option<string> { if a.Some? then a else b }

  predicate PastExpiry(r: Row, now: int) { r.absolute <= now || r.idle <= now }

  predicate SameFamily(base: Row, key: Key, k: Key, r: Row) {
    if base.family.Some? then r.owner == base.owner && r.family == base.family else k == key
  }

  /** A conditional update of every live row that `hit` selects. */
  function Close(rows: Rows, hit: (Key, Row) -> bool, status: Status): (r: Rows)
    ensures r.Keys == rows.Keys
  {
    map k | k in rows :: if Live(rows[k]) && hit(k, rows[k]) then rows[k].(status := status) else rows[k]
  }

  function PatchActive(rows: Rows, key: Key, row: Row): Rows {
    if key in rows && rows[key].status == Active then rows[key := row] else rows
  }

  /** The condition of the compare-and-swap: the row is active and still holds the ciphertext the request started from. */
  predicate Swappable(rows: Rows, key: Key, previous: Cipher) {
    key in rows && rows[key].status == Active && rows[key].refresh == previous
  }

  function Swapped(rows: Rows, key: Key, previous: Cipher, access: Cipher, refresh: Cipher): Rows {
    if Swappable(rows, key, previous) then rows[key := rows[key].(access := access, refresh := refresh)] else rows
  }

  function Touched(rows: Rows, key: Key, row: Row, now: int): Rows {
    if key in rows then PatchActive(rows, key, rows[key].(lastSeen := now, idle := Min(now + IDLE_TTL, row.absolute))) else rows
  }

  // ---- steps ----

  function Goto(s: State, id: RunId, pc: Pc): (t: State)
    requires id in s.runs
    ensures id in t.runs
  {
    s.(runs := s.runs[id := s.runs[id].(pc := pc)])
  }

  /** Authentication answers with `row`. */
  function Answer(s: State, id: RunId, row: Row, peer: bool, pc: Pc): (t: State)
    requires id in s.runs
    ensures id in t.runs
  {
    s.(runs := s.runs[id := s.runs[id].(row := row, peer := peer, pc := pc)])
  }

  /** A fresh credential is now in flight; an encryption never repeats an earlier ciphertext. */
  function Issue(s: State, id: RunId, refresh: Cipher, pc: Pc): (t: State)
    requires id in s.runs
    ensures id in t.runs
  {
    if refresh in s.issued then Goto(s, id, Done) else Goto(s.(issued := s.issued + {refresh}), id, pc)
  }

  /** The row takes a new credential; the ciphertext it held is retired. */
  function Replace(s: State, key: Key, row: Row): State
    requires key in s.rows
  {
    s.(rows := s.rows[key := row], retired := s.retired + {s.rows[key].refresh})
  }

  function StepToken(s: State, id: RunId, reply: Reply): (t: State)
    requires id in s.runs
    ensures id in t.runs
  {
    match reply
    case Rejected => Goto(s, id, Reread(true, 0))
    case Tokens(access, refresh) => Issue(s, id, refresh, Store(access, refresh))
    case _ => Goto(s, id, Done)
  }

  /** One durable re-read of the row a peer may have rotated. */
  function StepReread(s: State, id: RunId, reply: Reply): (t: State)
    requires id in s.runs && s.runs[id].pc.Reread?
    ensures id in t.runs
  {
    var run := s.runs[id];
    if reply.Fault? then Goto(s, id, Done)
    else if run.key in s.rows && s.rows[run.key].refresh != run.base.refresh then Answer(s, id, s.rows[run.key], true, VerifyPeer)
    else if run.pc.count + 1 < REREADS then Goto(s, id, Reread(run.pc.rejected, run.pc.count + 1))
    else Goto(s, id, if run.pc.rejected then RevokeFamily else Done)
  }

  /** The compare-and-swap on the ciphertext the request started from. */
  function StepStore(s: State, id: RunId, reply: Reply): (t: State)
    requires id in s.runs && s.runs[id].pc.Store?
    ensures id in t.runs
  {
    var run := s.runs[id];
    if reply.Fault? then Goto(s, id, Done)
    else if Swappable(s.rows, run.key, run.base.refresh) then
      var stored := s.rows[run.key].(access := run.pc.access, refresh := run.pc.refresh);
      var s' := Replace(s, run.key, stored).(log := s.log + [Rotation(run.key, run.base.refresh, run.pc.refresh)]);
      Answer(s', id, stored, false, VerifyStored)
    else Goto(s, id, Reread(false, 0))
  }

  predicate NeedsFactor(request: Request) { request.CompleteMfa? || request.StepUp? }

  function AfterAct(run: Run, now: int): Pc {
    match run.request
    case Touch => if now - run.row.lastSeen < TOUCH_INTERVAL then Done else Commit
    case Revoke(_) => Commit
    case RevokeAll => Commit
    case _ => Done
  }

  /** The request's own work; a second factor is challenged and verified first. */
  function StepAct(s: State, id: RunId, reply: Reply): (t: State)
    requires id in s.runs
    ensures id in t.runs
  {
    if NeedsFactor(s.runs[id].request) && reply.MfaTokens?
    then Issue(s, id, reply.refresh, Write(reply.access, reply.refresh, reply.family))
    else Goto(s, id, AfterAct(s.runs[id], s.clock))
  }

  /** The row with the second factor's credential, activated when it was pending. */
  function Verified(run: Run, r: Row, now: int): Row
    requires run.pc.Write?
  {
    var renewed := r.(access := run.pc.newAccess, refresh := run.pc.newRefresh, family := Or(run.pc.newFamily, run.row.family), aal2 := true);
    if run.request.CompleteMfa? then renewed.(status := Active, lastSeen := now, idle := Min(now + IDLE_TTL, run.row.absolute))
    else renewed
  }

  /** The second factor's credential: activates a pending row, or replaces the credential of an active one. */
  function StepWrite(s: State, id: RunId, reply: Reply): (t: State)
    requires id in s.runs && s.runs[id].pc.Write?
    ensures id in t.runs
  {
    var run := s.runs[id];
    var expected := if run.request.CompleteMfa? then PendingMfa else Active;
    if reply.Fault? || run.key !in s.rows || s.rows[run.key].status != expected then Goto(s, id, Done)
    else Goto(Replace(s, run.key, Verified(run, s.rows[run.key], s.clock)), id, Done)
  }

  /** The other writes: no credential changes hands. */
  function Committed(s: State, run: Run): Rows {
    match run.request
    case Touch => Touched(s.rows, run.key, run.row, s.clock)
    case Revoke(target) => Close(s.rows, (k: Key, r: Row) => k == target && r.owner == run.row.owner, Revoked)
    case RevokeAll => Close(s.rows, (k: Key, r: Row) => r.owner == run.row.owner, Revoked)
    case _ => s.rows
  }

  function ClaimsPatched(rows: Rows, key: Key, base: Row, family: Option<string>, aal2: bool): Rows {
    if key in rows then PatchActive(rows, key, rows[key].(family := Or(family, base.family), aal2 := aal2)) else rows
  }

  function FamilyRevoked(rows: Rows, key: Key, base: Row): Rows {
    Close(rows, (k: Key, r: Row) => SameFamily(base, key, k, r), Revoked)
  }

  function MarkedExpired(rows: Rows, key: Key): Rows { Close(rows, (k: Key, r: Row) => k == key, Expired) }

  function WithRows(s: State, rows: Rows, id: RunId, pc: Pc): (t: State)
    requires id in s.runs
    ensures id in t.runs
  {
    Goto(s.(rows := rows), id, pc)
  }

  function StepRun(s: State, id: RunId, reply: Reply): (t: State)
    requires id in s.runs
    ensures id in t.runs
  {
    var run := s.runs[id];
    match run.pc
    case MarkExpired => if reply.Fault? then Goto(s, id, Done) else WithRows(s, MarkedExpired(s.rows, run.key), id, Done)
    case Verify =>
      if reply.Claims? then Answer(s, id, run.base, false, Act)
      else Goto(s, id, if reply.TokenExpired? then Token else Done)
    case Token => StepToken(s, id, reply)
    case Reread(_, _) => StepReread(s, id, reply)
    case RevokeFamily => if reply.Fault? then Goto(s, id, Done) else WithRows(s, FamilyRevoked(s.rows, run.key, run.base), id, Done)
    case Store(_, _) => StepStore(s, id, reply)
    case VerifyStored => Goto(s, id, if reply.Claims? then PatchClaims(reply.family, reply.aal2) else Done)
    case PatchClaims(family, aal2) =>
      if reply.Fault? then Goto(s, id, Done)
      else Answer(s.(rows := ClaimsPatched(s.rows, run.key, run.base, family, aal2)), id,
                  run.row.(family := Or(family, run.base.family), aal2 := aal2), false, Act)
    case VerifyPeer => Goto(s, id, if reply.Claims? then Act else Done)
    case Act => StepAct(s, id, reply)
    case Write(_, _, _) => StepWrite(s, id, reply)
    case Commit => if reply.Fault? then Goto(s, id, Done) else WithRows(s, Committed(s, run), id, Done)
    case Done => s
  }

  /** The first read of a request, and the checks made on it. */
  function FirstPc(request: Request, r: Row, now: int): Option<Pc> {
    if request.CompleteMfa? then
      if r.status != PendingMfa then None else Some(if r.idle <= now then MarkExpired else Act)
    else if r.status != Active then None
    else Some(if PastExpiry(r, now) then MarkExpired else Verify)
  }

  function Created(s: State, a: Action): Row
    requires a.Create?
  {
    var absolute := s.clock + a.duration;
    Row(a.owner, a.access, a.refresh, a.family, a.aal2, if a.mfa then PendingMfa else Active, s.clock,
        Min(s.clock + if a.mfa then PENDING_TTL else IDLE_TTL, absolute), absolute)
  }

  function Apply(s: State, a: Action): State {
    match a
    case Tick(ms) => s.(clock := s.clock + ms)
    case Create(key, _, _, refresh, _, _, _, _) =>
      if key in s.rows || refresh in s.issued then s
      else s.(rows := s.rows[key := Created(s, a)], issued := s.issued + {refresh})
    case Begin(id, key, request) =>
      if id in s.runs || key !in s.rows then s
      else
        var pc := FirstPc(request, s.rows[key], s.clock);
        if pc.None? then s else s.(runs := s.runs[id := Run(key, request, s.clock, s.rows[key], s.rows[key], false, pc.value)])
    case Step(id, reply) => if id in s.runs then StepRun(s, id, reply) else s
  }

  function Execute(s: State, actions: seq<Action>): State {
    if actions == [] then s else Apply(Execute(s, actions[..|actions| - 1]), actions[|actions| - 1])
  }

  function Start(now: int): State { State(map[], map[], now, {}, {}, []) }
}
