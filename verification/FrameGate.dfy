/** The browser side of the terminal relay: frame sequence numbers and the rate window. */
module FrameGate {
  import opened Outcomes

  const WINDOW_MS := 1000
  const MAX_FRAMES := 60
  const MAX_BYTES := 65536
  const MAX_STDIN := 8192
  const MAX_SAFE_INTEGER := 9007199254740991

  /** A browser frame after parsing; `NotAnObject` stands for every value that is no object. */
  datatype Kind = Stdin(bytes: nat) | Resize(cols: int, rows: int) | Ping | Detach | Malformed
  datatype Frame = NotAnObject | Frame(sequence: Option<int>, kind: Kind)

  /** The frame handed to the runtime. */
  datatype Output = Output(sequence: int, kind: Kind)

  datatype Rate = Rate(started: int, frames: nat, bytes: nat)

  predicate ContractOk(k: Kind) {
    match k
    case Stdin(bytes) => bytes <= MAX_STDIN
    case Resize(cols, rows) => 2 <= cols <= 500 && 2 <= rows <= 200
    case Malformed => false
    case _ => true
  }

  function BytesOf(k: Kind): nat { if k.Stdin? then k.bytes else 0 }

  predicate SequenceOk(f: Frame, previous: int) {
    f.Frame? && f.sequence.Some? && -MAX_SAFE_INTEGER <= f.sequence.value <= MAX_SAFE_INTEGER && f.sequence.value > previous
  }

  /** The window the frame at `now` is counted in. */
  function Opened(r: Rate, now: int): Rate {
    if now - r.started >= WINDOW_MS then Rate(now, 0, 0) else r
  }

  function Charged(r: Rate, f: Frame, previous: int, now: int): Rate {
    if !SequenceOk(f, previous) then r
    else
      var w := Opened(r, now);
      w.(frames := w.frames + 1, bytes := if ContractOk(f.kind) then w.bytes + BytesOf(f.kind) else w.bytes)
  }

  predicate Accepts(r: Rate, f: Frame, previous: int, now: int) {
    && SequenceOk(f, previous) && ContractOk(f.kind)
    && Charged(r, f, previous, now).frames <= MAX_FRAMES && Charged(r, f, previous, now).bytes <= MAX_BYTES
  }

  /** One attached connection: the rate record, the last browser sequence and what was sent on. */
  class Relay {
    var started: int
    var frames: nat
    var bytes: nat
    var browserSequence: int
    var sent: seq<int>

    ghost function Window(): Rate
      reads this
    {
      Rate(started, frames, bytes)
    }

    /** On open the relay itself sends the attach frame, numbered 1. */
    constructor (now: int)
      ensures Window() == Rate(now, 0, 0) && browserSequence == 0 && sent == [1]
    {
      started, frames, bytes, browserSequence, sent := now, 0, 0, 0, [1];
    }

    /** `browserFrame`: charges the window, then accepts or throws. */
    method BrowserFrame(f: Frame, previous: int, now: int) returns (out: Option<Output>)
      modifies this`started, this`frames, this`bytes
      ensures Window() == Charged(old(Window()), f, previous, now)
      ensures out.Some? <==> Accepts(old(Window()), f, previous, now)
      ensures out.Some? ==> f.Frame? && out == Some(Output(f.sequence.value, f.kind))
    {
      if f.NotAnObject? || f.sequence.None? || f.sequence.value < -MAX_SAFE_INTEGER || f.sequence.value > MAX_SAFE_INTEGER
         || f.sequence.value <= previous {
        return None;
      }
      if now - started >= WINDOW_MS { started, frames, bytes := now, 0, 0; }
      frames := frames + 1;
      if f.kind.Stdin? && f.kind.bytes <= MAX_STDIN {
        bytes := bytes + f.kind.bytes;
      } else if f.kind.Resize? && 2 <= f.kind.cols <= 500 && 2 <= f.kind.rows <= 200 {
      } else if f.kind.Ping? || f.kind.Detach? {
      } else {
        return None;
      }
      if frames > MAX_FRAMES || bytes > MAX_BYTES { return None; }
      return Some(Output(f.sequence.value, f.kind));
    }

    /** The message handler: an accepted frame advances the sequence and is sent one higher. */
    method OnMessage(f: Frame, now: int) returns (ok: bool)
      modifies this
      ensures Window() == Charged(old(Window()), f, old(browserSequence), now)
      ensures ok == Accepts(old(Window()), f, old(browserSequence), now)
      ensures ok ==> f.Frame? && f.sequence.Some? && browserSequence == f.sequence.value && sent == old(sent) + [f.sequence.value + 1]
      ensures !ok ==> browserSequence == old(browserSequence) && sent == old(sent)
    {
      var out := BrowserFrame(f, browserSequence, now);
      if out.None? { return false; }
      browserSequence := out.value.sequence;
      sent := sent + [out.value.sequence + 1];
      return true;
    }
  }

  // ----- Whole connections -----

  datatype Arrival = Arrival(at: int, frame: Frame)

  /** An accepted frame: when, in which window, how many stdin bytes, and its number towards the runtime. */
  datatype Admitted = Admitted(at: int, window: int, bytes: nat, number: int)

  datatype State = State(rate: Rate, sequence: int, log: seq<Admitted>)

  function Next(s: State, a: Arrival): State {
    var r := Charged(s.rate, a.frame, s.sequence, a.at);
    if Accepts(s.rate, a.frame, s.sequence, a.at)
    then State(r, a.frame.sequence.value, s.log + [Admitted(a.at, r.started, BytesOf(a.frame.kind), a.frame.sequence.value + 1)])
    else s.(rate := r)
  }

  function Run(start: int, arrivals: seq<Arrival>): State {
    if arrivals == [] then State(Rate(start, 0, 0), 0, [])
    else Next(Run(start, arrivals[..|arrivals| - 1]), arrivals[|arrivals| - 1])
  }

  /** The clock does not run backwards during the connection. */
  predicate InOrder(start: int, arrivals: seq<Arrival>) {
    && (forall i | 0 <= i < |arrivals| :: start <= arrivals[i].at)
    && (forall i, j | 0 <= i < j < |arrivals| :: arrivals[i].at <= arrivals[j].at)
  }

  function Count(log: seq<Admitted>, window: int): nat {
    if log == [] then 0 else Count(log[..|log| - 1], window) + if log[|log| - 1].window == window then 1 else 0
  }

  function Bytes(log: seq<Admitted>, window: int): nat {
    if log == [] then 0 else Bytes(log[..|log| - 1], window) + if log[|log| - 1].window == window then log[|log| - 1].bytes else 0
  }

  predicate LogOk(s: State, now: int) {
    && s.rate.started <= now
    && (forall i | 0 <= i < |s.log| :: s.log[i].window <= s.log[i].at < s.log[i].window + WINDOW_MS)
    && (forall i | 0 <= i < |s.log| :: s.log[i].window == s.rate.started || s.log[i].window + WINDOW_MS <= s.rate.started)
    && (forall i, j | 0 <= i < |s.log| && 0 <= j < |s.log| ::
          s.log[i].window == s.log[j].window || s.log[i].window + WINDOW_MS <= s.log[j].window || s.log[j].window + WINDOW_MS <= s.log[i].window)
  }

  predicate NumbersOk(s: State) {
    && s.sequence >= 0
    && (forall i | 0 <= i < |s.log| :: 2 <= s.log[i].number <= s.sequence + 1)
    && (forall i, j | 0 <= i < j < |s.log| :: s.log[i].number < s.log[j].number)
  }

  ghost predicate CountsOk(s: State) {
    forall w :: Count(s.log, w) <= MAX_FRAMES && Bytes(s.log, w) <= MAX_BYTES
      && (w == s.rate.started ==> Count(s.log, w) <= s.rate.frames && Bytes(s.log, w) <= s.rate.bytes)
  }

  lemma NextKeepsLog(s: State, a: Arrival, now: int)
    requires LogOk(s, now) && now <= a.at
    ensures LogOk(Next(s, a), a.at)
  {
  }

  lemma NextKeepsNumbers(s: State, a: Arrival)
    requires NumbersOk(s)
    ensures NumbersOk(Next(s, a))
  {
  }

  lemma {:induction false} NoneInLaterWindow(log: seq<Admitted>, w: int)
    requires forall i | 0 <= i < |log| :: log[i].window < w
    ensures Count(log, w) == 0 && Bytes(log, w) == 0
  {
    if log != [] { NoneInLaterWindow(log[..|log| - 1], w); }
  }

  lemma NextKeepsCounts(s: State, a: Arrival, now: int)
    requires LogOk(s, now) && CountsOk(s) && now <= a.at
    ensures CountsOk(Next(s, a))
  {
    var t := Next(s, a);
    if a.at - s.rate.started >= WINDOW_MS {
      NoneInLaterWindow(s.log, a.at);
    }
    forall w ensures Count(t.log, w) <= MAX_FRAMES && Bytes(t.log, w) <= MAX_BYTES
      && (w == t.rate.started ==> Count(t.log, w) <= t.rate.frames && Bytes(t.log, w) <= t.rate.bytes)
    {
      assert t.log != s.log ==> t.log[..|t.log| - 1] == s.log;
    }
  }

  lemma {:induction false} RunKeeps(start: int, arrivals: seq<Arrival>)
    requires InOrder(start, arrivals)
    ensures var s := Run(start, arrivals);
      LogOk(s, if arrivals == [] then start else arrivals[|arrivals| - 1].at) && NumbersOk(s) && CountsOk(s)
  {
    if arrivals != [] {
      var before, a := arrivals[..|arrivals| - 1], arrivals[|arrivals| - 1];
      RunKeeps(start, before);
      var s, now := Run(start, before), if before == [] then start else before[|before| - 1].at;
      NextKeepsLog(s, a, now);
      NextKeepsNumbers(s, a);
      NextKeepsCounts(s, a, now);
    }
  }

  /** Numbers towards the runtime: the attach frame is 1, and every later one is larger than all before. */
  lemma NumbersIncrease(start: int, arrivals: seq<Arrival>)
    requires InOrder(start, arrivals)
    ensures var log := Run(start, arrivals).log;
      (forall i | 0 <= i < |log| :: 1 < log[i].number) && (forall i, j | 0 <= i < j < |log| :: log[i].number < log[j].number)
  {
    RunKeeps(start, arrivals);
  }

  // ----- Any interval of one second -----

  function CountIn(log: seq<Admitted>, from: int): nat {
    if log == [] then 0 else CountIn(log[..|log| - 1], from) + if from <= log[|log| - 1].at < from + WINDOW_MS then 1 else 0
  }

  function BytesIn(log: seq<Admitted>, from: int): nat {
    if log == [] then 0 else BytesIn(log[..|log| - 1], from) + if from <= log[|log| - 1].at < from + WINDOW_MS then log[|log| - 1].bytes else 0
  }

  /** Two windows cover everything admitted in the interval. */
  predicate Covers(log: seq<Admitted>, from: int, v: int, w: int) {
    forall i | 0 <= i < |log| && from <= log[i].at < from + WINDOW_MS :: log[i].window == v || log[i].window == w
  }

  lemma {:induction false} CoveredCount(log: seq<Admitted>, from: int, v: int, w: int)
    requires Covers(log, from, v, w)
    ensures CountIn(log, from) <= Count(log, v) + Count(log, w) && BytesIn(log, from) <= Bytes(log, v) + Bytes(log, w)
  {
    if log != [] {
      var before := log[..|log| - 1];
      assert forall i | 0 <= i < |before| :: before[i] == log[i];
      CoveredCount(before, from, v, w);
    }
  }

  /** Windows are a second apart, so an interval of one second meets at most two of them. */
  lemma TwoWindowsCover(log: seq<Admitted>, from: int) returns (v: int, w: int)
    requires forall i | 0 <= i < |log| :: log[i].window <= log[i].at < log[i].window + WINDOW_MS
    requires forall i, j | 0 <= i < |log| && 0 <= j < |log| ::
      log[i].window == log[j].window || log[i].window + WINDOW_MS <= log[j].window || log[j].window + WINDOW_MS <= log[i].window
    ensures Covers(log, from, v, w)
  {
    v, w := 0, 0;
    if i :| 0 <= i < |log| && from <= log[i].at < from + WINDOW_MS {
      v, w := log[i].window, log[i].window;
      if j :| 0 <= j < |log| && from <= log[j].at < from + WINDOW_MS && log[j].window != v {
        w := log[j].window;
      }
    }
  }

  /** Any half-open interval of 1000 ms admits at most 120 frames and 128 KiB of stdin. */
  lemma SlidingWindowBound(start: int, arrivals: seq<Arrival>, from: int)
    requires InOrder(start, arrivals)
    ensures var log := Run(start, arrivals).log; CountIn(log, from) <= 120 && BytesIn(log, from) <= 131072
  {
    RunKeeps(start, arrivals);
    var s := Run(start, arrivals);
    var v, w := TwoWindowsCover(s.log, from);
    CoveredCount(s.log, from, v, w);
  }

  // ----- The bound is reached -----

  /** Frames of one window: eight full stdin frames, then pings. */
  function Filler(i: nat): Kind { if i < 8 then Stdin(MAX_STDIN) else Ping }

  /** Sixty frames in the last millisecond of one window, sixty in the first of the next. */
  function BurstArrival(start: int, i: nat): Arrival {
    if i < MAX_FRAMES then Arrival(start + 999, Frame(Some(i + 1), Filler(i)))
    else Arrival(start + 1000, Frame(Some(i + 1), Filler(i - MAX_FRAMES)))
  }

  function Burst(start: int, n: nat): seq<Arrival> {
    if n == 0 then [] else Burst(start, n - 1) + [BurstArrival(start, n - 1)]
  }

  function FillerBytes(n: nat): nat { if n <= 8 then n * MAX_STDIN else MAX_BYTES }

  /** What the relay holds after `n` frames of the burst. */
  ghost predicate Bursting(s: State, start: int, n: nat) {
    && s.sequence == n && CountIn(s.log, start + 999) == n
    && (n <= 60 ==> s.rate == Rate(start, n, FillerBytes(n)) && BytesIn(s.log, start + 999) == FillerBytes(n))
    && (n > 60 ==> s.rate == Rate(start + 1000, n - 60, FillerBytes(n - 60)) && BytesIn(s.log, start + 999) == MAX_BYTES + FillerBytes(n - 60))
  }

  lemma BurstStep(s: State, start: int, n: nat)
    requires n < 120 && Bursting(s, start, n)
    ensures Bursting(Next(s, BurstArrival(start, n)), start, n + 1)
  {
    var t := Next(s, BurstArrival(start, n));
    assert t.log[..|t.log| - 1] == s.log;
  }

  lemma {:induction false} BurstInOrder(start: int, n: nat)
    ensures |Burst(start, n)| == n && forall i | 0 <= i < n :: Burst(start, n)[i] == BurstArrival(start, i)
  {
    if n > 0 { BurstInOrder(start, n - 1); }
  }

  lemma RunSnoc(start: int, arrivals: seq<Arrival>, a: Arrival)
    ensures Run(start, arrivals + [a]) == Next(Run(start, arrivals), a)
  {
    assert (arrivals + [a])[..|arrivals|] == arrivals;
  }

  lemma {:induction false} BurstRuns(start: int, n: nat)
    requires n <= 120
    ensures Bursting(Run(start, Burst(start, n)), start, n)
  {
    if n > 0 {
      BurstRuns(start, n - 1);
      RunSnoc(start, Burst(start, n - 1), BurstArrival(start, n - 1));
      BurstStep(Run(start, Burst(start, n - 1)), start, n - 1);
    }
  }

  /** Both bounds are reached: a connection on which one sliding second holds 120 frames and 128 KiB of stdin. */
  lemma SlidingWindowBoundIsReached(start: int) returns (arrivals: seq<Arrival>, from: int)
    ensures InOrder(start, arrivals)
    ensures var log := Run(start, arrivals).log; CountIn(log, from) == 120 && BytesIn(log, from) == 131072
  {
    arrivals, from := Burst(start, 120), start + 999;
    BurstInOrder(start, 120);
    BurstRuns(start, 120);
  }

  // ----- What is accepted -----

  /** A frame the contract allows: stdin of at most 8192 bytes, a size of 2 to 500 columns and 2 to 200 rows, a ping or a detach. */
  predicate Lawful(k: Kind) {
    match k
    case Stdin(bytes) => bytes <= 8192
    case Resize(cols, rows) => !(cols < 2 || cols > 500 || rows < 2 || rows > 200)
    case Ping | Detach => true
    case Malformed => false
  }

  /** Exactly when a frame goes on: numbered, lawful, and within 60 frames and 64 KiB of the second that is being counted. */
  lemma AcceptsIff(r: Rate, f: Frame, previous: int, now: int)
    ensures Accepts(r, f, previous, now) <==>
      && f.Frame? && f.sequence.Some? && Lawful(f.kind)
      && previous < f.sequence.value <= 9007199254740991 && f.sequence.value >= -9007199254740991
      && var (frames, bytes) := if now - r.started < 1000 then (r.frames, r.bytes) else (0, 0);
         frames < 60 && bytes + (match f.kind case Stdin(n) => n case _ => 0) <= 65536
  {
  }

  /** A frame that is not even numbered costs nothing; any other one counts, and its bytes count if it is lawful. */
  lemma ChargesExactly(r: Rate, f: Frame, previous: int, now: int)
    ensures var after := Charged(r, f, previous, now);
      if f.NotAnObject? || f.sequence.None? || f.sequence.value <= previous
         || f.sequence.value > 9007199254740991 || f.sequence.value < -9007199254740991 then after == r
      else
        var (started, frames, bytes) := if now - r.started < 1000 then (r.started, r.frames, r.bytes) else (now, 0, 0);
        after == Rate(started, frames + 1, bytes + (match f.kind case Stdin(n) => (if n <= 8192 then n else 0) case _ => 0))
  {
  }
}
