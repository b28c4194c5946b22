/**
 * The browser-side bulk sender of the dashboard (src/components/Dashboard.jsx):
 * the resumable `startSending` loop over the uploaded rows, the cooperative
 * stop flag, the newest-first activity log, the test message and the Reset
 * button.
 *
 * Everything the loop waits for is an oracle: per row, whether the user had
 * pressed Stop when the loop looked at the flag (at the top of the iteration
 * and again after the delay), the random delay, the random variant picks, and
 * what the provider's `send` did. The provider calls and delays the loop makes
 * are recorded in `trace`.
 */
module ForegroundSender {
  import opened Wrappers
  import JsText
  import Interpolation

  type Row = Interpolation.Row

  /** The `type` of a log entry. */
  datatype Level = Info | Warning | Error

  /** What a log entry says; the time stamp is not modelled. */
  datatype Event =
    | Starting
    | StoppedByUser
    | NoPhone(rowNumber: nat)
    | Waiting(seconds: nat)
    | SentTo(to: string, id: string)
    | FailedTo(to: string, error: string)
    | SystemError(rowNumber: nat, message: string)
    | Finished
    | TestSending(to: string)
    | TestSent(to: string, id: string)
    | TestFailed(error: string)
    | TestError(message: string)

  datatype LogEntry = LogEntry(event: Event, level: Level)

  /** What `provider.send` did: resolved with success, resolved with failure, or threw. */
  datatype Outcome = Delivered(id: string) | Rejected(error: string) | Threw(message: string)

  /** What the sender waited for, in order: the provider calls and the human-looking pauses. */
  datatype Effect =
    | Delay(row: nat, ms: nat)
    | Send(row: nat, to: string, body: string)
    | TestSend(to: string, body: string)

  /** The environment seen while handling one row. */
  datatype Draw = Draw(stopAtTop: bool, choices: seq<nat>, delayMs: nat, stopAfterDelay: bool, outcome: Outcome)

  const MinDelayMs: nat := 45000
  const MaxDelayMs: nat := 90000
  /** Row counts above this ask for confirmation first. */
  const ConfirmAbove: nat := 500

  /** `Math.round(delayMs / 1000)` for a non-negative delay. */
  function RoundSeconds(ms: nat): (s: nat)
    ensures 1000 * s <= ms + 500 < 1000 * s + 1000
  {
    (ms + 500) / 1000
  }

  /** A column the loop takes for the phone number: its lower-cased name contains `phone` or `mobile`. */
  predicate IsPhoneColumn(key: string) {
    var k := JsText.Lower(key);
    JsText.Contains(k, "phone") || JsText.Contains(k, "mobile")
  }

  /** `Object.keys(row).find(...)`: the first phone column in column order. */
  function PhoneKey(row: Row): (k: Option<nat>)
    ensures k.Some? ==> k.value < |row| && IsPhoneColumn(row[k.value].0)
                        && forall j :: 0 <= j < k.value ==> !IsPhoneColumn(row[j].0)
    ensures k.None? ==> forall j :: 0 <= j < |row| ==> !IsPhoneColumn(row[j].0)
  {
    if row == [] then None
    else if IsPhoneColumn(row[0].0) then Some(0)
    else
      match PhoneKey(row[1..])
      case Some(k) => Some(k + 1)
      case None => None
  }

  /** The recipient `to`, with '' for every falsy value (no phone column, undefined or empty cell). */
  function PhoneOf(row: Row): string {
    match PhoneKey(row)
    case Some(k) => Interpolation.CellText(row[k].1)
    case None => ""
  }

  /** The recipient of every row, as the loop looks it up. */
  function Phones(rows: seq<Row>): (phones: seq<string>)
    ensures |phones| == |rows| && forall j :: 0 <= j < |rows| ==> phones[j] == PhoneOf(rows[j])
  {
    seq(|rows|, j requires 0 <= j < |rows| => PhoneOf(rows[j]))
  }

  /** The oracle covers every row, and every row is one the renderer handles. */
  predicate RunFits(tpl: string, rows: seq<Row>, draws: seq<Draw>) {
    && |draws| >= |rows|
    && forall i :: 0 <= i < |rows| ==>
         && Interpolation.Renderable(rows[i])
         && MinDelayMs <= draws[i].delayMs <= MaxDelayMs
  }

  /** The message of every row, rendered with that row's variant draws. */
  function Bodies(tpl: string, rows: seq<Row>, draws: seq<Draw>): (bodies: seq<string>)
    requires RunFits(tpl, rows, draws)
    ensures |bodies| == |rows|
    ensures forall j :: 0 <= j < |rows| ==> bodies[j] == Interpolation.Interpolate(tpl, rows[j], draws[j].choices)
  {
    seq(|rows|, j requires 0 <= j < |rows| => Interpolation.Interpolate(tpl, rows[j], draws[j].choices))
  }

  /** Row j's recipient and message are `phones[j]` and `bodies[j]`. */
  predicate RowSeen(rows: seq<Row>, tpl: string, draws: seq<Draw>, phones: seq<string>, bodies: seq<string>, j: nat)
    requires RunFits(tpl, rows, draws) && j < |rows| == |phones| == |bodies|
  {
    phones[j] == PhoneOf(rows[j]) && bodies[j] == Interpolation.Interpolate(tpl, rows[j], draws[j].choices)
  }

  lemma AllRowsSeen(rows: seq<Row>, tpl: string, draws: seq<Draw>)
    requires RunFits(tpl, rows, draws)
    ensures forall j :: 0 <= j < |rows| ==> RowSeen(rows, tpl, draws, Phones(rows), Bodies(tpl, rows, draws), j)
  {
    forall j | 0 <= j < |rows| ensures RowSeen(rows, tpl, draws, Phones(rows), Bodies(tpl, rows, draws), j) {
      assert Phones(rows)[j] == PhoneOf(rows[j]);
    }
  }

  /** What the loop sees of each row: its recipient and its message, with one draw per row. */
  predicate Covers(phones: seq<string>, bodies: seq<string>, draws: seq<Draw>) {
    |phones| == |bodies| <= |draws|
  }

  /** What the loop changes: the progress counters, the log and the trace. */
  datatype Run = Run(sent: nat, failed: nat, logs: seq<LogEntry>, trace: seq<Effect>)

  /** The state after one iteration, and whether it ended in `break`. */
  datatype Step = Step(run: Run, stopped: bool)

  function Log(r: Run, e: Event, l: Level): Run {
    r.(logs := [LogEntry(e, l)] + r.logs)
  }

  /** The human-looking pause before every send but the first of the run (Dashboard.jsx:161-165). */
  function Pause(r: Run, start: nat, i: nat, ms: nat): Run {
    if i > start then Log(r, Waiting(RoundSeconds(ms)), Warning).(trace := r.trace + [Delay(i, ms)]) else r
  }

  /** Bookkeeping of one provider call's outcome (Dashboard.jsx:175-186). */
  function Record(r: Run, i: nat, to: string, o: Outcome): Run {
    match o
    case Delivered(id) => Log(r, SentTo(to, id), Info).(sent := r.sent + 1)
    case Rejected(e) => Log(r, FailedTo(to, e), Error).(failed := r.failed + 1)
    case Threw(m) => Log(r, SystemError(i + 1, m), Error).(failed := r.failed + 1)
  }

  /** One iteration of the loop body for row i, whose recipient is `to` and message `body` (Dashboard.jsx:140-186). */
  function Visit(to: string, body: string, d: Draw, start: nat, i: nat, r: Run): Step {
    if d.stopAtTop then Step(Log(r, StoppedByUser, Warning), true)
    else if to == "" then Step(Log(r, NoPhone(i + 1), Error).(failed := r.failed + 1), false)
    else
      var r1 := Pause(r, start, i, d.delayMs);
      if d.stopAfterDelay then Step(Log(r1, StoppedByUser, Warning), true)
      else Step(Record(r1.(trace := r1.trace + [Send(i, to, body)]), i, to, d.outcome), false)
  }

  /** How the loop ended: the state, the index it stopped at, and whether it stopped by `break`. */
  datatype Finish = Finish(run: Run, end: nat, stopped: bool)

  /** The loop from index i on (Dashboard.jsx:139-187). */
  function Drive(phones: seq<string>, bodies: seq<string>, draws: seq<Draw>, start: nat, i: nat, r: Run): Finish
    requires Covers(phones, bodies, draws)
    decreases |phones| - i
  {
    if i >= |phones| then Finish(r, i, false)
    else
      var v := Visit(phones[i], bodies[i], draws[i], start, i, r);
      if v.stopped then Finish(v.run, i, true) else Drive(phones, bodies, draws, start, i + 1, v.run)
  }

  /** One unrolling of the loop. */
  lemma DriveStep(phones: seq<string>, bodies: seq<string>, draws: seq<Draw>, start: nat, i: nat, r: Run)
    requires Covers(phones, bodies, draws) && i < |phones|
    ensures var v := Visit(phones[i], bodies[i], draws[i], start, i, r);
            Drive(phones, bodies, draws, start, i, r)
            == if v.stopped then Finish(v.run, i, true) else Drive(phones, bodies, draws, start, i + 1, v.run)
  {
  }

  /** Everything the dashboard's handlers read or write. */
  datatype Screen = Screen(
    rows: seq<Row>, template: string, testPhone: string,
    sent: nat, failed: nat, logs: seq<LogEntry>,
    stop: bool, isSending: bool, isSendingTest: bool,
    trace: seq<Effect>)

  /**
   * The run as the loop starts it (Dashboard.jsx:122-137). The reset at
   * 126-129 and the start index at 137 both read the progress as it was when
   * the handler was made, so after a completed run the counters and logs are
   * cleared but the loop still starts at the old end.
   */
  function Launch(s: Screen): Run {
    var base := if s.sent + s.failed == |s.rows| then Run(0, 0, [], s.trace) else Run(s.sent, s.failed, s.logs, s.trace);
    Log(base, Starting, Info)
  }

  /** The screen after the loop ended as f says (Dashboard.jsx:189-190). */
  function Conclude(s: Screen, f: Finish): Screen {
    s.(sent := f.run.sent, failed := f.run.failed, logs := [LogEntry(Finished, Info)] + f.run.logs,
       stop := f.stopped, isSending := false, trace := f.run.trace)
  }

  /** `startSending` returns at once: no rows, a blank template, or a large run not confirmed. */
  predicate Declines(s: Screen, confirmed: bool) {
    |s.rows| == 0 || JsText.IsBlank(s.template) || (|s.rows| > ConfirmAbove && !confirmed)
  }

  /** `startSending` (Dashboard.jsx:107-191). */
  function StartSpec(s: Screen, confirmed: bool, draws: seq<Draw>): Screen
    requires RunFits(s.template, s.rows, draws)
  {
    if Declines(s, confirmed) then s else Sweep(s, draws)
  }

  /** The run `startSending` makes once past its guards, from the current progress on. */
  function Sweep(s: Screen, draws: seq<Draw>): Screen
    requires RunFits(s.template, s.rows, draws)
  {
    var startIndex := s.sent + s.failed;
    Conclude(s, Drive(Phones(s.rows), Bodies(s.template, s.rows, draws), draws, startIndex, startIndex, Launch(s)))
  }

  /** The row the test message is rendered with: the first one, or an empty object. */
  function TestRow(rows: seq<Row>): Row {
    if |rows| > 0 then rows[0] else []
  }

  /** `sendTestMessage` returns at once: a blank test phone or a blank template. */
  predicate TestSkipped(s: Screen) {
    JsText.IsBlank(s.testPhone) || JsText.IsBlank(s.template)
  }

  /** The log line for the provider's answer to a test message. */
  function TestReply(to: string, outcome: Outcome): LogEntry {
    match outcome
    case Delivered(id) => LogEntry(TestSent(to, id), Info)
    case Rejected(e) => LogEntry(TestFailed(e), Error)
    case Threw(m) => LogEntry(TestError(m), Error)
  }

  /** `sendTestMessage` (Dashboard.jsx:193-224). */
  function TestSpec(s: Screen, choices: seq<nat>, outcome: Outcome): Screen
    requires Interpolation.Renderable(TestRow(s.rows))
  {
    if TestSkipped(s) then s else TestRun(s, choices, outcome)
  }

  /** One test message to the test phone, rendered with the first row. */
  function TestRun(s: Screen, choices: seq<nat>, outcome: Outcome): Screen
    requires Interpolation.Renderable(TestRow(s.rows))
  {
    var message := Interpolation.Interpolate(s.template, TestRow(s.rows), choices);
    s.(logs := [TestReply(s.testPhone, outcome)] + ([LogEntry(TestSending(s.testPhone), Info)] + s.logs),
       isSendingTest := false,
       trace := s.trace + [TestSend(s.testPhone, message)])
  }

  // ---- what a run does --------------------------------------------------

  /** Row j ends the loop: Stop was seen at the top, or after the delay of a row that has a phone. */
  predicate Halts(phones: seq<string>, d: Draw, j: nat)
    requires j < |phones|
  {
    d.stopAtTop || (phones[j] != "" && d.stopAfterDelay)
  }

  /**
   * What the loop waits for while handling row j, written out case by case:
   * nothing for a stop at the top or a row without a phone; otherwise a pause
   * exactly when j is past the first row of the run, then the provider call
   * unless Stop was seen during the pause.
   */
  function RowEffects(phones: seq<string>, bodies: seq<string>, d: Draw, start: nat, j: nat): seq<Effect>
    requires j < |phones| == |bodies|
  {
    if d.stopAtTop || phones[j] == "" then []
    else
      (if j > start then [Delay(j, d.delayMs)] else [])
      + (if d.stopAfterDelay then [] else [Send(j, phones[j], bodies[j])])
  }

  /** The effects of rows i..end-1, then those of row end when the loop stopped there. */
  function Effects(phones: seq<string>, bodies: seq<string>, draws: seq<Draw>, start: nat, i: nat, end: nat, stopped: bool): seq<Effect>
    requires Covers(phones, bodies, draws) && i <= end <= |phones| && (stopped ==> end < |phones|)
    decreases end - i
  {
    if i == end then (if stopped then RowEffects(phones, bodies, draws[end], start, end) else [])
    else RowEffects(phones, bodies, draws[i], start, i) + Effects(phones, bodies, draws, start, i + 1, end, stopped)
  }

  /** Rows i..end-1 that reach the provider and come back delivered. */
  function Delivered(phones: seq<string>, draws: seq<Draw>, i: nat, end: nat): nat
    requires i <= end <= |phones| <= |draws|
    decreases end - i
  {
    if i == end then 0
    else (if phones[i] != "" && draws[i].outcome.Delivered? then 1 else 0) + Delivered(phones, draws, i + 1, end)
  }

  /** `logs` is `old_logs` with zero or more newer entries in front. */
  predicate Prepended(old_logs: seq<LogEntry>, logs: seq<LogEntry>) {
    |old_logs| <= |logs| && logs[|logs| - |old_logs|..] == old_logs
  }

  /** One iteration, summarised. */
  lemma VisitFacts(phones: seq<string>, bodies: seq<string>, d: Draw, start: nat, i: nat, r: Run)
    requires i < |phones| == |bodies|
    ensures var v := Visit(phones[i], bodies[i], d, start, i, r);
            && v.stopped == Halts(phones, d, i)
            && v.run.sent == r.sent + (if !v.stopped && phones[i] != "" && d.outcome.Delivered? then 1 else 0)
            && v.run.sent + v.run.failed == r.sent + r.failed + (if v.stopped then 0 else 1)
            && v.run.trace == r.trace + RowEffects(phones, bodies, d, start, i)
            && Prepended(r.logs, v.run.logs)
  {
    PrependedRefl(r.logs);
    var to := phones[i];
    if !d.stopAtTop && to != "" {
      var r1 := Pause(r, start, i, d.delayMs);
      if i > start {
        PrependedCons(LogEntry(Waiting(RoundSeconds(d.delayMs)), Warning), r.logs, r.logs);
      }
      if d.stopAfterDelay {
        PrependedCons(LogEntry(StoppedByUser, Warning), r.logs, r1.logs);
      } else {
        match d.outcome
        case Delivered(id) => PrependedCons(LogEntry(SentTo(to, id), Info), r.logs, r1.logs);
        case Rejected(e) => PrependedCons(LogEntry(FailedTo(to, e), Error), r.logs, r1.logs);
        case Threw(m) => PrependedCons(LogEntry(SystemError(i + 1, m), Error), r.logs, r1.logs);
      }
    } else if d.stopAtTop {
      PrependedCons(LogEntry(StoppedByUser, Warning), r.logs, r.logs);
    } else {
      PrependedCons(LogEntry(NoPhone(i + 1), Error), r.logs, r.logs);
    }
  }

  lemma PrependedRefl(a: seq<LogEntry>)
    ensures Prepended(a, a)
  {
    assert a[0..] == a;
  }

  lemma PrependedCons(e: LogEntry, a: seq<LogEntry>, b: seq<LogEntry>)
    requires Prepended(a, b)
    ensures Prepended(a, [e] + b)
  {
    assert ([e] + b)[|[e] + b| - |a|..] == b[|b| - |a|..];
  }

  /** The loop from row i on ends at the first row that halts it, or after the last row. */
  lemma {:induction false} DriveEnd(phones: seq<string>, bodies: seq<string>, draws: seq<Draw>, start: nat, i: nat, r: Run)
    requires Covers(phones, bodies, draws) && i <= |phones|
    ensures var f := Drive(phones, bodies, draws, start, i, r);
            && i <= f.end <= |phones| && (f.stopped <==> f.end < |phones|)
            && (f.stopped ==> Halts(phones, draws[f.end], f.end))
            && (forall j :: i <= j < f.end ==> !Halts(phones, draws[j], j))
    decreases |phones| - i
  {
    if i < |phones| {
      var v := Visit(phones[i], bodies[i], draws[i], start, i, r);
      DriveStep(phones, bodies, draws, start, i, r);
      VisitFacts(phones, bodies, draws[i], start, i, r);
      if !v.stopped {
        DriveEnd(phones, bodies, draws, start, i + 1, v.run);
      }
    }
  }

  /** The loop from row i on counts every row it finishes once, as delivered or as failed. */
  lemma {:induction false} DriveCounts(phones: seq<string>, bodies: seq<string>, draws: seq<Draw>, start: nat, i: nat, r: Run)
    requires Covers(phones, bodies, draws) && i <= |phones|
    ensures var f := Drive(phones, bodies, draws, start, i, r);
            && i <= f.end <= |phones|
            && f.run.sent == r.sent + Delivered(phones, draws, i, f.end)
            && f.run.sent + f.run.failed == r.sent + r.failed + (f.end - i)
    decreases |phones| - i
  {
    if i < |phones| {
      var v := Visit(phones[i], bodies[i], draws[i], start, i, r);
      DriveStep(phones, bodies, draws, start, i, r);
      VisitFacts(phones, bodies, draws[i], start, i, r);
      if !v.stopped {
        DriveCounts(phones, bodies, draws, start, i + 1, v.run);
      }
    }
  }

  /** Exactly the pauses and provider calls of `Effects` are made, and log entries are only added in front. */
  lemma {:induction false} DriveTrace(phones: seq<string>, bodies: seq<string>, draws: seq<Draw>, start: nat, i: nat, r: Run)
    requires Covers(phones, bodies, draws) && i <= |phones|
    ensures var f := Drive(phones, bodies, draws, start, i, r);
            && i <= f.end <= |phones| && (f.stopped ==> f.end < |phones|)
            && f.run.trace == r.trace + Effects(phones, bodies, draws, start, i, f.end, f.stopped)
            && Prepended(r.logs, f.run.logs)
    decreases |phones| - i
  {
    if i == |phones| {
      PrependedRefl(r.logs);
      assert r.trace + [] == r.trace;
    } else {
      var v := Visit(phones[i], bodies[i], draws[i], start, i, r);
      var here := RowEffects(phones, bodies, draws[i], start, i);
      DriveStep(phones, bodies, draws, start, i, r);
      VisitFacts(phones, bodies, draws[i], start, i, r);
      if v.stopped {
        assert Effects(phones, bodies, draws, start, i, i, true) == here;
      } else {
        DriveTrace(phones, bodies, draws, start, i + 1, v.run);
        var f := Drive(phones, bodies, draws, start, i + 1, v.run);
        var later := Effects(phones, bodies, draws, start, i + 1, f.end, f.stopped);
        EffectsCons(phones, bodies, draws, start, i, f.end, f.stopped);
        TraceAssoc(r.trace, here, later);
        PrependedTrans(r.logs, v.run.logs, f.run.logs);
      }
    }
  }

  lemma EffectsCons(phones: seq<string>, bodies: seq<string>, draws: seq<Draw>, start: nat, i: nat, end: nat, stopped: bool)
    requires Covers(phones, bodies, draws) && i < end <= |phones| && (stopped ==> end < |phones|)
    ensures Effects(phones, bodies, draws, start, i, end, stopped)
            == RowEffects(phones, bodies, draws[i], start, i) + Effects(phones, bodies, draws, start, i + 1, end, stopped)
  {
  }

  lemma TraceAssoc(a: seq<Effect>, b: seq<Effect>, c: seq<Effect>)
    ensures (a + b) + c == a + (b + c)
  {
  }

  /** What one row may add: a call to its own recipient with its own message, or a pause past the first row. */
  predicate EffectOfRow(phones: seq<string>, bodies: seq<string>, draws: seq<Draw>, start: nat, e: Effect)
    requires Covers(phones, bodies, draws)
  {
    && !e.TestSend?
    && e.row < |phones|
    && (e.Send? ==> phones[e.row] != "" && e.to == phones[e.row] && e.body == bodies[e.row])
    && (e.Delay? ==> start < e.row && e.ms == draws[e.row].delayMs)
  }

  /**
   * Every effect of rows i..end-1, and of a row that halted the loop, is one
   * of `EffectOfRow`, for a row in i..end (a call only for a row before end).
   */
  lemma {:induction false} EffectsSound(phones: seq<string>, bodies: seq<string>, draws: seq<Draw>, start: nat, i: nat, end: nat, stopped: bool)
    requires Covers(phones, bodies, draws) && i <= end <= |phones| && (stopped ==> end < |phones|)
    requires stopped ==> Halts(phones, draws[end], end)
    ensures forall e :: e in Effects(phones, bodies, draws, start, i, end, stopped) ==>
              EffectOfRow(phones, bodies, draws, start, e) && i <= e.row <= end && (e.Send? ==> e.row < end)
    decreases end - i
  {
    if i < end {
      EffectsSound(phones, bodies, draws, start, i + 1, end, stopped);
      var here := RowEffects(phones, bodies, draws[i], start, i);
      var later := Effects(phones, bodies, draws, start, i + 1, end, stopped);
      assert Effects(phones, bodies, draws, start, i, end, stopped) == here + later;
      forall e | e in here ensures EffectOfRow(phones, bodies, draws, start, e) && e.row == i {
      }
    }
  }

  /** Every row in i..end-1 that has a phone is called, with its recipient and message. */
  lemma {:induction false} EffectsComplete(phones: seq<string>, bodies: seq<string>, draws: seq<Draw>, start: nat, i: nat, end: nat, stopped: bool)
    requires Covers(phones, bodies, draws) && i <= end <= |phones| && (stopped ==> end < |phones|)
    requires forall j :: i <= j < end ==> !Halts(phones, draws[j], j)
    ensures forall j :: i <= j < end && phones[j] != "" ==> Send(j, phones[j], bodies[j]) in Effects(phones, bodies, draws, start, i, end, stopped)
    decreases end - i
  {
    if i < end {
      EffectsComplete(phones, bodies, draws, start, i + 1, end, stopped);
      var here := RowEffects(phones, bodies, draws[i], start, i);
      assert Effects(phones, bodies, draws, start, i, end, stopped) == here + Effects(phones, bodies, draws, start, i + 1, end, stopped);
      if phones[i] != "" {
        assert !Halts(phones, draws[i], i);
        assert Send(i, phones[i], bodies[i]) in here;
      }
    }
  }

  lemma PrependedTrans(a: seq<LogEntry>, b: seq<LogEntry>, c: seq<LogEntry>)
    requires Prepended(a, b) && Prepended(b, c)
    ensures Prepended(a, c)
  {
    assert c[|c| - |a|..] == c[|c| - |b|..][|b| - |a|..];
  }

  // ---- what `startSending` and `sendTestMessage` promise ------------------
  // `StartSpec` is `s` itself when `Declines` holds and `Sweep` otherwise, so
  // the properties of a started run are stated about `Sweep`.

  /** Progress never passes the number of rows it started within. */
  lemma SweepBound(s: Screen, draws: seq<Draw>)
    requires RunFits(s.template, s.rows, draws) && s.sent + s.failed <= |s.rows|
    ensures var t := Sweep(s, draws);
            t.rows == s.rows && t.template == s.template && t.sent + t.failed <= |t.rows|
  {
    var start := s.sent + s.failed;
    var phones, bodies := Phones(s.rows), Bodies(s.template, s.rows, draws);
    assert Sweep(s, draws) == Conclude(s, Drive(phones, bodies, draws, start, start, Launch(s)));
    ConcludeBound(s, phones, bodies, draws);
  }

  /** The run starts from no progress after a completed run, and from the current progress otherwise. */
  lemma LaunchProgress(s: Screen)
    ensures var r := Launch(s);
            r.sent + r.failed == (if s.sent + s.failed == |s.rows| then 0 else s.sent + s.failed)
  {
  }

  /** `SweepBound` for any recipients and messages, one per row. */
  lemma ConcludeBound(s: Screen, phones: seq<string>, bodies: seq<string>, draws: seq<Draw>)
    requires Covers(phones, bodies, draws) && |phones| == |s.rows| && s.sent + s.failed <= |s.rows|
    ensures var start := s.sent + s.failed;
            var t := Conclude(s, Drive(phones, bodies, draws, start, start, Launch(s)));
            t.rows == s.rows && t.template == s.template && t.sent + t.failed <= |t.rows|
  {
    var start := s.sent + s.failed;
    LaunchProgress(s);
    DriveCounts(phones, bodies, draws, start, start, Launch(s));
  }

  /**
   * What a run may add to the trace: calls only to rows from `sent + failed`
   * on that have a phone, each with that row's recipient and rendered
   * message, and pauses only before rows past the first, each within the
   * 45-90 second window. Rows already counted are never sent again.
   */
  lemma SweepSends(s: Screen, draws: seq<Draw>)
    requires RunFits(s.template, s.rows, draws)
    ensures var t := Sweep(s, draws);
            && |s.trace| <= |t.trace| && t.trace[..|s.trace|] == s.trace
            && forall e :: e in t.trace[|s.trace|..] ==>
                 && !e.TestSend? && s.sent + s.failed <= e.row < |s.rows|
                 && (e.Send? ==> e.to == PhoneOf(s.rows[e.row]) && e.to != ""
                                 && e.body == Interpolation.Interpolate(s.template, s.rows[e.row], draws[e.row].choices))
                 && (e.Delay? ==> s.sent + s.failed < e.row && MinDelayMs <= e.ms <= MaxDelayMs)
  {
    var t := Sweep(s, draws);
    var start := s.sent + s.failed;
    var phones, bodies := Phones(s.rows), Bodies(s.template, s.rows, draws);
    var r := Launch(s);
    var f := Drive(phones, bodies, draws, start, start, r);
    if start > |s.rows| {
      assert f == Finish(r, start, false);
      assert t.trace[|s.trace|..] == [];
    } else {
      DriveEnd(phones, bodies, draws, start, start, r);
      DriveTrace(phones, bodies, draws, start, start, r);
      EffectsSound(phones, bodies, draws, start, start, f.end, f.stopped);
      var added := Effects(phones, bodies, draws, start, start, f.end, f.stopped);
      assert t.trace == s.trace + added;
      assert t.trace[|s.trace|..] == added;
    }
  }

  /**
   * A run that is not stopped calls every row from `sent + failed` on that
   * has a phone; it is stopped exactly when some row from there on saw Stop
   * (at the top, or after the pause of a row with a phone).
   */
  lemma SweepReachesEveryRow(s: Screen, draws: seq<Draw>)
    requires RunFits(s.template, s.rows, draws)
    ensures var t := Sweep(s, draws);
            var start := s.sent + s.failed;
            && (t.stop <==> exists j :: start <= j < |s.rows| && Halts(Phones(s.rows), draws[j], j))
            && (!t.stop ==> forall j :: start <= j < |s.rows| && PhoneOf(s.rows[j]) != "" ==>
                  Send(j, PhoneOf(s.rows[j]), Interpolation.Interpolate(s.template, s.rows[j], draws[j].choices)) in t.trace)
  {
    var start := s.sent + s.failed;
    var phones, bodies := Phones(s.rows), Bodies(s.template, s.rows, draws);
    var r := Launch(s);
    var f := Drive(phones, bodies, draws, start, start, r);
    if start > |s.rows| {
      assert f == Finish(r, start, false);
    } else {
      DriveEnd(phones, bodies, draws, start, start, r);
      DriveTrace(phones, bodies, draws, start, start, r);
      if f.stopped {
        assert start <= f.end < |s.rows| && Halts(phones, draws[f.end], f.end);
      } else {
        EffectsComplete(phones, bodies, draws, start, start, f.end, f.stopped);
        var added := Effects(phones, bodies, draws, start, start, f.end, f.stopped);
        forall j | start <= j < |s.rows| && PhoneOf(s.rows[j]) != ""
          ensures Send(j, PhoneOf(s.rows[j]), Interpolation.Interpolate(s.template, s.rows[j], draws[j].choices)) in r.trace + added
        {
          assert phones[j] == PhoneOf(s.rows[j]) && bodies[j] == Interpolation.Interpolate(s.template, s.rows[j], draws[j].choices);
          assert Send(j, phones[j], bodies[j]) in added;
        }
      }
    }
  }

  /**
   * Restarting after a completed run clears the counters and the log but,
   * since the start index was read before the reset, sends nothing.
   */
  lemma RestartAfterFullRun(s: Screen, draws: seq<Draw>)
    requires RunFits(s.template, s.rows, draws) && s.sent + s.failed == |s.rows|
    ensures Sweep(s, draws)
            == s.(sent := 0, failed := 0, logs := [LogEntry(Finished, Info), LogEntry(Starting, Info)],
                  stop := false, isSending := false)
  {
    var start := s.sent + s.failed;
    var phones, bodies := Phones(s.rows), Bodies(s.template, s.rows, draws);
    assert Drive(phones, bodies, draws, start, start, Launch(s)) == Finish(Run(0, 0, [LogEntry(Starting, Info)], s.trace), start, false);
  }

  /**
   * With more progress than rows (rows replaced by a shorter upload), a
   * start logs its begin and end and changes nothing else.
   */
  lemma StaleProgressSendsNothing(s: Screen, draws: seq<Draw>)
    requires RunFits(s.template, s.rows, draws) && s.sent + s.failed > |s.rows|
    ensures Sweep(s, draws)
            == s.(logs := [LogEntry(Finished, Info), LogEntry(Starting, Info)] + s.logs, stop := false, isSending := false)
  {
    var start := s.sent + s.failed;
    var phones, bodies := Phones(s.rows), Bodies(s.template, s.rows, draws);
    var r := Launch(s);
    assert Drive(phones, bodies, draws, start, start, r) == Finish(r, start, false);
    assert [LogEntry(Finished, Info)] + ([LogEntry(Starting, Info)] + s.logs)
        == [LogEntry(Finished, Info), LogEntry(Starting, Info)] + s.logs;
  }

  /** The test message touches neither the progress counters nor the rows, and only adds log entries in front. */
  lemma TestNeutral(s: Screen, choices: seq<nat>, outcome: Outcome)
    requires Interpolation.Renderable(TestRow(s.rows))
    ensures var t := TestSpec(s, choices, outcome);
            && t.sent == s.sent && t.failed == s.failed && t.rows == s.rows && t.template == s.template
            && t.stop == s.stop && t.isSending == s.isSending
            && Prepended(s.logs, t.logs)
            && t.trace == s.trace + (if TestSkipped(s) then [] else [TestSend(s.testPhone, Interpolation.Interpolate(s.template, TestRow(s.rows), choices))])
  {
    PrependedRefl(s.logs);
    if !TestSkipped(s) {
      PrependedCons(LogEntry(TestSending(s.testPhone), Info), s.logs, s.logs);
      PrependedCons(TestReply(s.testPhone, outcome), s.logs, [LogEntry(TestSending(s.testPhone), Info)] + s.logs);
    } else {
      assert s.trace + [] == s.trace;
    }
  }

  class Dashboard {
    var rows: seq<Row>
    var template: string
    var testPhone: string
    var sent: nat
    var failed: nat
    var logs: seq<LogEntry>
    var stop: bool
    var isSending: bool
    var isSendingTest: bool
    var trace: seq<Effect>

    function State(): Screen
      reads this
    {
      Screen(rows, template, testPhone, sent, failed, logs, stop, isSending, isSendingTest, trace)
    }

    function Current(): Run
      reads this
    {
      Run(sent, failed, logs, trace)
    }

    /** The initial `useState` values (Dashboard.jsx:12-34). */
    constructor ()
      ensures State() == Screen([], "", "", 0, 0, [], false, false, false, [])
    {
      rows, template, testPhone := [], "", "";
      sent, failed, logs := 0, 0, [];
      stop, isSending, isSendingTest := false, false, false;
      trace := [];
    }

    /** `setCsvData`, as the upload component calls it. */
    method LoadRows(newRows: seq<Row>)
      modifies this
      ensures State() == old(State()).(rows := newRows)
    {
      rows := newRows;
    }

    /** `setTemplate`, as the composer calls it. */
    method SetTemplate(t: string)
      modifies this
      ensures State() == old(State()).(template := t)
    {
      template := t;
    }

    /** `setTestPhoneNumber`. */
    method SetTestPhone(p: string)
      modifies this
      ensures State() == old(State()).(testPhone := p)
    {
      testPhone := p;
    }

    /** `addLog` (Dashboard.jsx:80-83): the new entry goes first. */
    method AddLog(e: Event, l: Level)
      modifies this
      ensures logs == [LogEntry(e, l)] + old(logs)
      ensures rows == old(rows) && template == old(template) && testPhone == old(testPhone)
      ensures sent == old(sent) && failed == old(failed) && trace == old(trace)
      ensures stop == old(stop) && isSending == old(isSending) && isSendingTest == old(isSendingTest)
    {
      logs := [LogEntry(e, l)] + logs;
    }

    /** `stopSending` (Dashboard.jsx:226-228). */
    method StopSending()
      modifies this
      ensures State() == old(State()).(stop := true)
    {
      stop := true;
    }

    /** The Reset button (Dashboard.jsx:418-423). */
    method Reset()
      modifies this
      ensures State() == old(State()).(sent := 0, failed := 0, logs := [], rows := [], template := "")
    {
      sent, failed, logs := 0, 0, [];
      rows, template := [], "";
    }

    /** The bookkeeping after `provider.send` returned or threw (Dashboard.jsx:175-186). */
    method RecordOutcome(i: nat, to: string, o: Outcome)
      modifies this
      ensures Current() == Record(old(Current()), i, to, o)
      ensures rows == old(rows) && template == old(template) && testPhone == old(testPhone)
      ensures stop == old(stop) && isSending == old(isSending) && isSendingTest == old(isSendingTest)
    {
      match o {
        case Delivered(id) =>
          AddLog(SentTo(to, id), Info);
          sent := sent + 1;
        case Rejected(e) =>
          AddLog(FailedTo(to, e), Error);
          failed := failed + 1;
        case Threw(m) =>
          AddLog(SystemError(i + 1, m), Error);
          failed := failed + 1;
      }
    }

    /** The body of the sending loop for row i; `stopped` says it ended in `break` (Dashboard.jsx:140-186). */
    method HandleRow(data: seq<Row>, tpl: string, d: Draw, startIndex: nat, i: nat) returns (stopped: bool)
      requires i < |data| && Interpolation.Renderable(data[i])
      modifies this
      ensures Step(Current(), stopped)
              == Visit(PhoneOf(data[i]), Interpolation.Interpolate(tpl, data[i], d.choices), d, startIndex, i, old(Current()))
      ensures rows == old(rows) && template == old(template) && testPhone == old(testPhone)
      ensures stop == old(stop) && isSending == old(isSending) && isSendingTest == old(isSendingTest)
    {
      if d.stopAtTop {
        AddLog(StoppedByUser, Warning);
        return true;
      }
      var row := data[i];
      var message := Interpolation.Interpolate(tpl, row, d.choices);
      var to := PhoneOf(row);
      if to == "" {
        AddLog(NoPhone(i + 1), Error);
        failed := failed + 1;
        return false;
      }
      if i > startIndex {
        AddLog(Waiting(RoundSeconds(d.delayMs)), Warning);
        trace := trace + [Delay(i, d.delayMs)];
      }
      if d.stopAfterDelay {
        AddLog(StoppedByUser, Warning);
        return true;
      }
      trace := trace + [Send(i, to, message)];
      RecordOutcome(i, to, d.outcome);
      return false;
    }

    /** The sending loop from `startIndex` on (Dashboard.jsx:139-187); `phones` and `bodies` are what it finds per row. */
    method SendRows(data: seq<Row>, tpl: string, draws: seq<Draw>, startIndex: nat,
                    ghost phones: seq<string>, ghost bodies: seq<string>) returns (stopped: bool)
      requires RunFits(tpl, data, draws) && |phones| == |bodies| == |data|
      requires forall j :: 0 <= j < |data| ==> RowSeen(data, tpl, draws, phones, bodies, j)
      modifies this
      ensures var goal := Drive(phones, bodies, draws, startIndex, startIndex, old(Current()));
              Finish(Current(), goal.end, stopped) == goal
      ensures rows == old(rows) && template == old(template) && testPhone == old(testPhone)
      ensures stop == old(stop) && isSending == old(isSending) && isSendingTest == old(isSendingTest)
    {
      ghost var goal := Drive(phones, bodies, draws, startIndex, startIndex, Current());
      ghost var cur := Current();
      var i := startIndex;
      stopped := false;
      while i < |data| && !stopped
        invariant startIndex <= i
        invariant rows == old(rows) && template == old(template) && testPhone == old(testPhone)
        invariant stop == old(stop) && isSending == old(isSending) && isSendingTest == old(isSendingTest)
        invariant cur == Current()
        invariant !stopped ==> Drive(phones, bodies, draws, startIndex, i, cur) == goal
        invariant stopped ==> goal == Finish(cur, i, true)
        decreases |data| - i, !stopped
      {
        assert RowSeen(data, tpl, draws, phones, bodies, i);
        ghost var v := Visit(phones[i], bodies[i], draws[i], startIndex, i, cur);
        DriveStep(phones, bodies, draws, startIndex, i, cur);
        stopped := HandleRow(data, tpl, draws[i], startIndex, i);
        assert Step(Current(), stopped) == v;
        cur := Current();
        if !stopped {
          i := i + 1;
        }
      }
    }

    /** `startSending` (Dashboard.jsx:107-191); `confirmed` is the answer to the over-500 dialog. */
    method StartSending(confirmed: bool, draws: seq<Draw>)
      requires RunFits(template, rows, draws)
      modifies this
      ensures State() == StartSpec(old(State()), confirmed, draws)
    {
      if Declines(State(), confirmed) {
        return;
      }
      Campaign(draws);
    }

    /** The part of `startSending` after its guards: reset, loop, final log. */
    method Campaign(draws: seq<Draw>)
      requires RunFits(template, rows, draws)
      modifies this
      ensures State() == Sweep(old(State()), draws)
    {
      ghost var s0 := State();
      // the handler works on the rows and template it was created with
      var data, tpl := rows, template;
      var startIndex := sent + failed;
      Begin();
      ghost var phones, bodies := Phones(data), Bodies(tpl, data, draws);
      AllRowsSeen(data, tpl, draws);
      var stopped := SendRows(data, tpl, draws, startIndex, phones, bodies);
      End(stopped);
    }

    /** Marks the screen busy, resets a completed run and logs the start. */
    method Begin()
      modifies this
      ensures Current() == Launch(old(State()))
      ensures rows == old(rows) && template == old(template) && testPhone == old(testPhone)
      ensures stop == false && isSending && isSendingTest == old(isSendingTest)
    {
      isSending := true;
      stop := false;
      if sent + failed == |rows| {
        sent, failed, logs := 0, 0, [];
      }
      AddLog(Starting, Info);
    }

    /** Clears the busy flag, records whether the user stopped the run and logs the end. */
    method End(stopped: bool)
      modifies this
      ensures sent == old(sent) && failed == old(failed) && trace == old(trace)
      ensures logs == [LogEntry(Finished, Info)] + old(logs)
      ensures rows == old(rows) && template == old(template) && testPhone == old(testPhone)
      ensures stop == stopped && !isSending && isSendingTest == old(isSendingTest)
    {
      isSending := false;
      stop := stopped;
      AddLog(Finished, Info);
    }

    /** `sendTestMessage` (Dashboard.jsx:193-224). */
    method SendTestMessage(choices: seq<nat>, outcome: Outcome)
      requires Interpolation.Renderable(TestRow(rows))
      modifies this
      ensures State() == TestSpec(old(State()), choices, outcome)
    {
      if TestSkipped(State()) {
        return;
      }
      TestOnce(choices, outcome);
    }

    /** The part of `sendTestMessage` after its guard. */
    method TestOnce(choices: seq<nat>, outcome: Outcome)
      requires Interpolation.Renderable(TestRow(rows))
      modifies this
      ensures State() == TestRun(old(State()), choices, outcome)
    {
      var message := Interpolation.Interpolate(template, TestRow(rows), choices);
      var to := testPhone;
      isSendingTest := true;
      AddLog(TestSending(to), Info);
      trace := trace + [TestSend(to, message)];
      match outcome {
        case Delivered(id) => AddLog(TestSent(to, id), Info);
        case Rejected(e) => AddLog(TestFailed(e), Error);
        case Threw(m) => AddLog(TestError(m), Error);
      }
      isSendingTest := false;
    }
  }
}
