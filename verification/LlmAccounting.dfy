/** The metering of LLM calls: a counter fed by every published call (agent/agent/counter/meter/MeterLLM.go)
    and a periodic task that reports it every 15 minutes and starts again every hour
    (agent/agent/counter/TaskLLM.go). */
module LlmAccounting {
  import opened Common
  import Gauge = LlmGauge

  const HOUR := 3600000
  const QUARTER := 900000

  /** The largest multiple of `unit` not beyond `t` seen from zero: the division truncates. */
  function Truncate(t: int, unit: int): int
    requires unit > 0
  {
    if t >= 0 then t / unit * unit else -((-t) / unit * unit)
  }

  /** What has been taken from the counter since the hour began.  Zero in `hourStart` and `next` means not
      yet set. */
  datatype Task = Task(count: int, error: int, hourStart: int, next: int)

  datatype Report = Report(time: int, units: int, errors: int)

  /** The start of the hour and the time of the next report, as one run of the reporting task sees them. */
  function HourStart(t: Task, now: int): int { if t.hourStart == 0 then Truncate(now, HOUR) else t.hourStart }

  function NextDue(t: Task, now: int): int { if t.next == 0 then Truncate(now, QUARTER) + QUARTER else t.next }

  datatype Ticked = Ticked(task: Task, report: Option<Report>, closed: bool)

  /** One run of the reporting task: the counter's values are taken over, a report is made when its time has
      come, and the hour is closed when it is over. */
  function Tick(t: Task, now: int, n: int, e: int): Ticked {
    var count, error := t.count + n, t.error + e;
    var hourStart, next := HourStart(t, now), NextDue(t, now);
    var due := now >= next;
    var next' := if due then Truncate(now, QUARTER) + QUARTER else next;
    var report := if due then Some(Report(next, count, error)) else None;
    if Truncate(now, HOUR) > hourStart then Ticked(Task(0, 0, Truncate(now, HOUR), next'), report, true)
    else Ticked(Task(count, error, hourStart, next'), report, false)
  }

  // ---------------------------------------------------------------------------------------------
  // When an hour is closed without a report.

  /** The hour is over before its last report is due. */
  predicate ClosesEarly(t: Task, now: int) { Truncate(now, HOUR) > HourStart(t, now) && now < NextDue(t, now) }

  /** The exact condition, from the state of `TaskLLM` and the clock before the run. */
  lemma UnreportedExactlyIf(t: Task, now: int, n: int, e: int)
    ensures var r := Tick(t, now, n, e); r.closed && r.report.None? <==> ClosesEarly(t, now)
  {
  }

  lemma TruncateIs(t: int, unit: int)
    requires t >= 0 && unit in {HOUR, QUARTER}
    ensures 0 <= Truncate(t, unit) <= t < Truncate(t, unit) + unit && Truncate(t, unit) % unit == 0
  {
    if unit == HOUR {
      assert Truncate(t, HOUR) == t / HOUR * HOUR;
    }
  }

  /** The current quarter lies within the current hour. */
  lemma QuarterWithinHour(t: int)
    requires t >= 0
    ensures Truncate(t, HOUR) <= Truncate(t, QUARTER) && Truncate(t, QUARTER) + QUARTER <= Truncate(t, HOUR) + HOUR
  {
    var q, h := t / QUARTER, t / HOUR;
    assert 4 * h <= q < 4 * h + 4;
  }

  lemma LaterMultiple(a: int, b: int)
    requires a % HOUR == 0 && b % HOUR == 0 && a < b
    ensures a + HOUR <= b
  {
  }

  /** The next report is due at a quarter, no later than the end of the current hour. */
  predicate OnTime(t: Task) {
    && t.hourStart >= 0 && t.hourStart % HOUR == 0
    && (if t.next == 0 then t.hourStart == 0
        else t.next > 0 && t.next % QUARTER == 0 && t.next <= t.hourStart + HOUR)
  }

  /** From the epoch on, whatever the clock does, no hour is closed early. */
  lemma NeverEarly(t: Task, now: int)
    requires OnTime(t) && now >= 0
    ensures !ClosesEarly(t, now)
  {
    TruncateIs(now, HOUR);
    if t.hourStart != 0 && Truncate(now, HOUR) > t.hourStart {
      LaterMultiple(t.hourStart, Truncate(now, HOUR));
    }
  }

  lemma DueKeepsOnTime(hourStart: int, now: int)
    requires now >= 0 && hourStart % HOUR == 0 && hourStart >= Truncate(now, HOUR)
    ensures var next := Truncate(now, QUARTER) + QUARTER;
            next > 0 && next % QUARTER == 0 && next <= hourStart + HOUR
  {
    TruncateIs(now, QUARTER);
    QuarterWithinHour(now);
  }

  lemma StaysOnTime(t: Task, now: int, n: int, e: int)
    requires OnTime(t) && now >= 0
    ensures OnTime(Tick(t, now, n, e).task) && Tick(t, now, n, e).task.next > 0
  {
    TruncateIs(now, HOUR);
    NeverEarly(t, now);
    DueKeepsOnTime(Truncate(now, HOUR), now);
    if HourStart(t, now) >= Truncate(now, HOUR) {
      DueKeepsOnTime(HourStart(t, now), now);
    }
  }

  /** The cadence: a report goes out exactly when its time has come, dated at that time; the next one is due at
      the end of the current quarter. */
  lemma ReportTimesGrow(t: Task, now: int, n: int, e: int)
    requires OnTime(t) && now >= 0
    ensures var r := Tick(t, now, n, e);
            && (r.report.Some? <==> t.next > 0 && now >= t.next)
            && (r.report.Some? ==> r.report.value.time == t.next && t.next % QUARTER == 0)
            && (if r.report.Some? || t.next == 0 then now < r.task.next <= now + QUARTER && r.task.next % QUARTER == 0
                else r.task.next == t.next)
  {
    TruncateIs(now, QUARTER);
  }

  /** The key fact: whatever the clock does from the epoch on, an hour is closed only in a run that has just
      reported the whole count of that hour. */
  lemma ClosesOnlyAfterReport(t: Task, now: int, n: nat, e: nat)
    requires OnTime(t) && now >= 0
    ensures var r := Tick(t, now, n, e);
            && (r.closed ==> r.report.Some?)
            && (r.report.Some? ==> r.report.value.units == t.count + n && r.report.value.errors == t.error + e)
  {
    NeverEarly(t, now);
    UnreportedExactlyIf(t, now, n, e);
  }

  // ---------------------------------------------------------------------------------------------
  // The books: which call is where.

  datatype Entry = Entry(id: int, failed: bool)

  /** A published call, with or without an error, or a run of the reporting task. */
  datatype Event = Publish(entry: Entry) | Run(now: int)

  function Failures(es: seq<Entry>): nat {
    if es == [] then 0 else Failures(Init(es)) + if Last(es).failed then 1 else 0
  }

  /** A closed hour: its final report, the calls that this report counts, and those that no report does. */
  datatype Hour = Hour(final: Option<Report>, reported: seq<Entry>, lost: seq<Entry>)

  /** The system and its history: the reports made, each with the number of hours closed before it; the
      closed hours; the calls of the current hour, the last report about it, and the calls in the meter. */
  datatype Books = Books(
    task: Task, meterCount: int, meterError: int,
    reports: seq<Report>, epochs: seq<nat>, hours: seq<Hour>,
    current: seq<Entry>, last: Option<Report>, pending: seq<Entry>)

  const OPENED := Books(Task(0, 0, 0, 0), 0, 0, [], [], [], [], None, [])

  /** How many calls of the current hour its last report counts. */
  function Covered(b: Books): (n: nat)
    ensures n <= |b.current|
  {
    if b.last.Some? && 0 <= b.last.value.units <= |b.current| then b.last.value.units else 0
  }

  function Close(b: Books): Books {
    var n := Covered(b);
    b.(hours := b.hours + [Hour(b.last, b.current[..n], b.current[n..])], current := [], last := None)
  }

  /** The counter is taken over, and a report goes out or not. */
  function TakenOver(b: Books, r: Ticked): Books {
    var b1 := b.(task := r.task, meterCount := 0, meterError := 0, current := b.current + b.pending, pending := []);
    if r.report.None? then b1
    else b1.(reports := b.reports + [r.report.value], epochs := b.epochs + [|b.hours|], last := r.report)
  }

  function Step(b: Books, ev: Event): Books {
    match ev
    case Publish(e) =>
      b.(meterCount := b.meterCount + 1, meterError := b.meterError + (if e.failed then 1 else 0),
         pending := b.pending + [e])
    case Run(now) =>
      var r := Tick(b.task, now, b.meterCount, b.meterError);
      if r.closed then Close(TakenOver(b, r)) else TakenOver(b, r)
  }

  function Play(evs: seq<Event>): Books {
    if evs == [] then OPENED else Step(Play(Init(evs)), Last(evs))
  }

  function Published(evs: seq<Event>): seq<Entry> {
    if evs == [] then [] else Published(Init(evs)) + if Last(evs).Publish? then [Last(evs).entry] else []
  }

  /** The calls of the closed hours. */
  function Contents(hs: seq<Hour>): seq<Entry> {
    if hs == [] then [] else Contents(Init(hs)) + (Last(hs).reported + Last(hs).lost)
  }

  /** Every call published so far, in order: closed hours, current hour, meter. */
  function AllCalls(b: Books): seq<Entry> { Contents(b.hours) + b.current + b.pending }

  predicate Counts(n: int, e: int, es: seq<Entry>) { n == |es| && e == Failures(es) }

  /** A report counts exactly these calls. */
  predicate Tells(r: Report, es: seq<Entry>) { Counts(r.units, r.errors, es) }

  predicate HourOk(h: Hour) { if h.final.Some? then Tells(h.final.value, h.reported) else h.reported == [] }

  /** The numbers are those of the calls, whatever the clock does. */
  predicate BooksOk(b: Books) {
    && Counts(b.task.count, b.task.error, b.current)
    && Counts(b.meterCount, b.meterError, b.pending)
    && (b.last.Some? ==> b.last.value.units <= |b.current| && b.last.value.units >= 0
                         && Tells(b.last.value, b.current[..b.last.value.units]))
    && forall k :: 0 <= k < |b.hours| ==> HourOk(b.hours[k])
  }

  lemma {:induction false} FailuresConcat(a: seq<Entry>, b: seq<Entry>)
    ensures Failures(a + b) == Failures(a) + Failures(b)
    decreases |b|
  {
    if b == [] {
      assert a + b == a;
    } else {
      assert Init(a + b) == a + Init(b);
      FailuresConcat(a, Init(b));
    }
  }

  lemma PublishKeepsBooks(b: Books, e: Entry)
    requires BooksOk(b)
    ensures BooksOk(Step(b, Publish(e))) && AllCalls(Step(b, Publish(e))) == AllCalls(b) + [e]
  {
    FailuresConcat(b.pending, [e]);
    assert Init([e]) == [];
  }

  /** The counts of the current hour match, also those of its last report. */
  predicate CurrentOk(b: Books, count: int, error: int) {
    && Counts(count, error, b.current) && Counts(b.meterCount, b.meterError, b.pending)
    && (b.last.Some? ==> 0 <= b.last.value.units <= |b.current| && Tells(b.last.value, b.current[..b.last.value.units]))
  }

  /** A report about the first calls is still true when more follow. */
  lemma StillTells(last: Option<Report>, a: seq<Entry>, b: seq<Entry>)
    requires last.Some? ==> 0 <= last.value.units <= |a| && Tells(last.value, a[..last.value.units])
    ensures last.Some? ==> last.value.units <= |a + b| && Tells(last.value, (a + b)[..last.value.units])
  {
    if last.Some? {
      assert (a + b)[..last.value.units] == a[..last.value.units];
    }
  }

  lemma TakenOverCounts(b: Books, r: Ticked)
    requires BooksOk(b)
    requires r.report.Some? ==> Counts(r.report.value.units, r.report.value.errors, b.current + b.pending)
    ensures CurrentOk(TakenOver(b, r), b.task.count + b.meterCount, b.task.error + b.meterError)
  {
    var all := b.current + b.pending;
    FailuresConcat(b.current, b.pending);
    StillTells(b.last, b.current, b.pending);
    assert all[..|all|] == all;
  }

  lemma TakenOverCalls(b: Books, r: Ticked)
    ensures AllCalls(TakenOver(b, r)) == AllCalls(b)
  {
    assert Contents(b.hours) + (b.current + b.pending) + [] == Contents(b.hours) + b.current + b.pending;
  }

  lemma TakingOverKeepsBooks(b: Books, now: int)
    requires BooksOk(b)
    ensures var r := Tick(b.task, now, b.meterCount, b.meterError);
            var b' := TakenOver(b, r);
            && CurrentOk(b', b.task.count + b.meterCount, b.task.error + b.meterError)
            && AllCalls(b') == AllCalls(b) && b'.pending == [] && b'.hours == b.hours
            && (r.report.Some? ==> Covered(b') == |b'.current|)
            && (r.report.None? ==> Covered(b') == Covered(b))
  {
    var r := Tick(b.task, now, b.meterCount, b.meterError);
    FailuresConcat(b.current, b.pending);
    TakenOverCounts(b, r);
    TakenOverCalls(b, r);
  }

  lemma CloseKeepsBooks(b: Books)
    requires CurrentOk(b, |b.current|, Failures(b.current)) && b.pending == []
    requires forall k :: 0 <= k < |b.hours| ==> HourOk(b.hours[k])
    ensures var b' := Close(b);
            && AllCalls(b') == AllCalls(b) && (forall k :: 0 <= k < |b'.hours| ==> HourOk(b'.hours[k]))
            && |Last(b'.hours).lost| == |b.current| - Covered(b)
            && Init(b'.hours) == b.hours
  {
    var n := Covered(b);
    var b' := Close(b);
    assert b.current[..n] + b.current[n..] == b.current;
    assert Init(b'.hours) == b.hours;
    assert Contents(b'.hours) == Contents(b.hours) + b.current;
    assert Contents(b.hours) + b.current + [] + [] == Contents(b.hours) + b.current + [];
  }

  /** A run of the reporting task moves calls without losing sight of any; an hour that it closes loses
      exactly the calls that are not covered by a report. */
  lemma RunKeepsBooks(b: Books, now: int)
    requires BooksOk(b)
    ensures var b' := Step(b, Run(now));
            && BooksOk(b') && AllCalls(b') == AllCalls(b)
            && if Loses(b, now) then Init(b'.hours) == b.hours && Last(b'.hours).lost != [] && |b'.hours| == |b.hours| + 1
               else b'.hours == b.hours
                    || (|b'.hours| == |b.hours| + 1 && Init(b'.hours) == b.hours && Last(b'.hours).lost == [])
  {
    var r := Tick(b.task, now, b.meterCount, b.meterError);
    UnreportedExactlyIf(b.task, now, b.meterCount, b.meterError);
    TakingOverKeepsBooks(b, now);
    if r.closed {
      CloseKeepsBooks(TakenOver(b, r));
    }
  }

  /** This run of the reporting task will close the hour although calls of it are in no report. */
  predicate Loses(b: Books, now: int) { ClosesEarly(b.task, now) && Covered(b) < |b.current| + |b.pending| }

  predicate NeverLoses(evs: seq<Event>) {
    evs == [] || (NeverLoses(Init(evs)) && (Last(evs).Run? ==> !Loses(Play(Init(evs)), Last(evs).now)))
  }

  predicate NothingLost(b: Books) { forall k :: 0 <= k < |b.hours| ==> b.hours[k].lost == [] }

  /** For every run and every clock: each published call is, in order, in exactly one closed hour, in the
      current hour or in the meter, and the numbers kept and reported are those of the calls.  No closed hour
      has lost a call if and only if no run of the reporting task found the losing condition true. */
  lemma {:induction false} EveryCallHasItsPlace(evs: seq<Event>)
    ensures BooksOk(Play(evs)) && AllCalls(Play(evs)) == Published(evs)
    ensures NothingLost(Play(evs)) <==> NeverLoses(evs)
    decreases |evs|
  {
    if evs != [] {
      var b := Play(Init(evs));
      EveryCallHasItsPlace(Init(evs));
      match Last(evs)
      case Publish(e) => PublishKeepsBooks(b, e);
      case Run(now) =>
        RunKeepsBooks(b, now);
        LostByOneRun(b.hours, Step(b, Run(now)).hours);
        assert Published(Init(evs)) + [] == Published(Init(evs));
    }
  }

  lemma LostByOneRun(hs: seq<Hour>, hs': seq<Hour>)
    requires hs' == hs || (|hs'| == |hs| + 1 && Init(hs') == hs)
    ensures (forall k :: 0 <= k < |hs'| ==> hs'[k].lost == []) <==>
            (forall k :: 0 <= k < |hs| ==> hs[k].lost == []) && (hs' == hs || Last(hs').lost == [])
  {
    if hs' != hs {
      assert forall k :: 0 <= k < |hs| ==> hs[k] == hs'[k];
      assert Last(hs') == hs'[|hs|];
    }
  }

  /** Report `i` is the last one about hour `k`. */
  predicate IsFinal(b: Books, k: nat, i: nat)
    requires |b.epochs| == |b.reports|
  {
    i < |b.reports| && b.epochs[i] == k && forall j :: i < j < |b.reports| ==> b.epochs[j] > k
  }

  ghost predicate FinalOk(b: Books, k: nat, final: Option<Report>)
    requires |b.epochs| == |b.reports|
  {
    match final
    case Some(r) => exists i: nat :: IsFinal(b, k, i) && b.reports[i] == r
    case None => forall i :: 0 <= i < |b.reports| ==> b.epochs[i] != k
  }

  /** The final report of a closed hour is the last one made about it; without one, none was made. */
  ghost predicate FinalsOk(b: Books) {
    && |b.epochs| == |b.reports| && (forall i :: 0 <= i < |b.epochs| ==> b.epochs[i] <= |b.hours|)
    && FinalOk(b, |b.hours|, b.last)
    && forall k :: 0 <= k < |b.hours| ==> FinalOk(b, k, b.hours[k].final)
  }

  lemma ReportIsFinal(b: Books, r: Ticked)
    requires FinalsOk(b)
    ensures FinalsOk(TakenOver(b, r))
  {
    var b' := TakenOver(b, r);
    if r.report.Some? {
      assert IsFinal(b', |b.hours|, |b.reports|);
      forall k | 0 <= k < |b.hours| ensures FinalOk(b', k, b'.hours[k].final) {
        if b.hours[k].final.Some? {
          var i: nat :| IsFinal(b, k, i) && b.reports[i] == b.hours[k].final.value;
          assert IsFinal(b', k, i);
        }
      }
    } else {
      forall k: nat, i: nat | IsFinal(b, k, i) ensures IsFinal(b', k, i) {
      }
    }
  }

  lemma CloseKeepsFinals(b: Books)
    requires FinalsOk(b)
    ensures FinalsOk(Close(b))
  {
    var b' := Close(b);
    forall k: nat, i: nat | IsFinal(b, k, i) ensures IsFinal(b', k, i) {
    }
    assert b'.hours[|b.hours|].final == b.last;
    assert forall k :: 0 <= k < |b.hours| ==> b'.hours[k] == b.hours[k];
  }

  lemma {:induction false} FinalReportsAreLast(evs: seq<Event>)
    ensures FinalsOk(Play(evs))
    decreases |evs|
  {
    if evs != [] {
      var b := Play(Init(evs));
      FinalReportsAreLast(Init(evs));
      match Last(evs)
      case Publish(e) =>
        forall k: nat, i: nat | IsFinal(b, k, i) ensures IsFinal(Play(evs), k, i) {
        }
      case Run(now) =>
        var r := Tick(b.task, now, b.meterCount, b.meterError);
        ReportIsFinal(b, r);
        CloseKeepsFinals(TakenOver(b, r));
    }
  }

  // ---------------------------------------------------------------------------------------------
  // From the epoch on.

  predicate AfterEpoch(evs: seq<Event>) {
    forall k :: 0 <= k < |evs| && evs[k].Run? ==> evs[k].now >= 0
  }

  /** Reports are dated at ever later quarters, and within an hour their numbers never fall. */
  predicate InOrder(b: Books) {
    && |b.epochs| == |b.reports|
    && (forall i :: 0 <= i < |b.reports| ==>
          b.reports[i].time % QUARTER == 0 && b.reports[i].time < b.task.next && b.epochs[i] <= |b.hours|)
    && (forall i, j :: 0 <= i < j < |b.reports| ==> b.reports[i].time < b.reports[j].time)
    && (forall i, j :: 0 <= i < j < |b.reports| && b.epochs[i] == b.epochs[j] ==>
          b.reports[i].units <= b.reports[j].units && b.reports[i].errors <= b.reports[j].errors)
    && (forall i :: 0 <= i < |b.reports| && b.epochs[i] == |b.hours| ==>
          b.reports[i].units <= b.task.count && b.reports[i].errors <= b.task.error)
  }

  /** One more report, which counts at least what the current hour had counted before. */
  lemma ReportKeepsOrder(b: Books, b': Books, r: Report)
    requires InOrder(b) && b.task.next <= r.time < b'.task.next && r.time % QUARTER == 0
    requires r.units >= b.task.count && r.errors >= b.task.error
    requires b'.reports == b.reports + [r] && b'.epochs == b.epochs + [|b.hours|] && |b.hours| <= |b'.hours|
    requires |b'.hours| == |b.hours| ==> b'.task.count >= r.units && b'.task.error >= r.errors
    ensures InOrder(b')
  {
  }

  lemma QuietKeepsOrder(b: Books, b': Books)
    requires InOrder(b) && b'.reports == b.reports && b'.epochs == b.epochs && b'.hours == b.hours
    requires b'.task.next == b.task.next || b.reports == []
    requires b'.task.count >= b.task.count && b'.task.error >= b.task.error
    ensures InOrder(b')
  {
  }

  /** The state from the epoch on. */
  predicate Timely(b: Books) {
    OnTime(b.task) && InOrder(b) && b.meterCount >= 0 && b.meterError >= 0 && (b.task.next == 0 ==> b.reports == [])
  }

  lemma RunKeepsOrder(b: Books, now: int)
    requires Timely(b) && now >= 0
    ensures Timely(Step(b, Run(now)))
  {
    var r := Tick(b.task, now, b.meterCount, b.meterError);
    var b' := Step(b, Run(now));
    ClosesOnlyAfterReport(b.task, now, b.meterCount, b.meterError);
    StaysOnTime(b.task, now, b.meterCount, b.meterError);
    ReportTimesGrow(b.task, now, b.meterCount, b.meterError);
    if r.report.Some? {
      ReportKeepsOrder(b, b', r.report.value);
    } else {
      QuietKeepsOrder(b, b');
    }
  }

  /** With any clock at or after the epoch, jumps included, nothing is lost: every published call is in the
      final report of exactly one closed hour, in the current hour or in the meter; and the reports are in
      order. */
  lemma {:induction false} NothingIsDropped(evs: seq<Event>)
    requires AfterEpoch(evs)
    ensures Timely(Play(evs)) && NeverLoses(evs)
    ensures NothingLost(Play(evs)) && BooksOk(Play(evs)) && AllCalls(Play(evs)) == Published(evs)
    decreases |evs|
  {
    EveryCallHasItsPlace(evs);
    if evs != [] {
      NothingIsDropped(Init(evs));
      var b := Play(Init(evs));
      if Last(evs).Run? {
        assert evs[|evs| - 1].now >= 0;
        RunKeepsOrder(b, Last(evs).now);
        NeverEarly(b.task, Last(evs).now);
      } else {
        QuietKeepsOrder(b, Play(evs));
      }
    }
  }

  // ---------------------------------------------------------------------------------------------
  // Hours are reported apart.

  /** The hour that a report belongs to, which may be dated at its end. */
  function HourOf(r: Report): int { (r.time - 1) / HOUR }

  /** Reports with the same number of closed hours before them are about the same hour. */
  predicate SameHour(b: Books)
    requires |b.epochs| == |b.reports|
  {
    forall i, j :: 0 <= i < j < |b.reports| && b.epochs[i] == b.epochs[j] ==> HourOf(b.reports[i]) == HourOf(b.reports[j])
  }

  /** The counts were begun in an hour that is over. */
  predicate HourOver(t: Task, now: int) { t.next != 0 && Truncate(now, HOUR) > t.hourStart }

  /** The counts were begun in the first hour of the epoch, whose start reads as not yet set, and the clock has
      passed it. */
  predicate Adopts(t: Task, now: int) { t.hourStart == 0 && t.next != 0 && now >= HOUR }

  /** The exact condition: an hour that is over is closed unless it is the first one of the epoch. */
  lemma KeepsCountsExactlyIf(t: Task, now: int, n: int, e: int)
    requires OnTime(t) && now >= 0
    ensures Tick(t, now, n, e).closed ==> HourOver(t, now)
    ensures HourOver(t, now) && !Tick(t, now, n, e).closed <==> Adopts(t, now)
  {
    TruncateIs(now, HOUR);
    if now >= HOUR {
      assert now / HOUR >= 1;
    }
  }

  predicate NeverAdopts(evs: seq<Event>) {
    evs == [] || (NeverAdopts(Init(evs)) && (Last(evs).Run? ==> !Adopts(Play(Init(evs)).task, Last(evs).now)))
  }

  /** The next report, and all those about the current hour, are dated within it. */
  predicate Hourly(b: Books) {
    && Timely(b) && SameHour(b)
    && (b.task.next != 0 ==> b.task.hourStart < b.task.next)
    && forall i :: 0 <= i < |b.reports| && b.epochs[i] == |b.hours| ==> WithinHour(b.reports[i], b.task.hourStart)
  }

  predicate WithinHour(r: Report, hourStart: int) { hourStart < r.time <= hourStart + HOUR }

  lemma HourOfWithin(r: Report, hourStart: int)
    requires hourStart % HOUR == 0 && WithinHour(r, hourStart)
    ensures HourOf(r) == hourStart / HOUR
  {
    var h, d := hourStart / HOUR, r.time - 1 - hourStart;
    assert hourStart == HOUR * h;
    assert 0 <= d < HOUR;
    assert (HOUR * h + d) / HOUR == h;
  }

  /** After a run that does not adopt an hour, the next report is due within the hour counted. */
  lemma NextWithinHour(t: Task, now: int, n: int, e: int)
    requires OnTime(t) && now >= 0 && !Adopts(t, now) && (t.next != 0 ==> t.hourStart < t.next)
    ensures var r := Tick(t, now, n, e);
            && r.task.hourStart < r.task.next
            && (!r.closed && t.next != 0 ==> r.task.hourStart == t.hourStart)
  {
    TruncateIs(now, HOUR);
    TruncateIs(now, QUARTER);
    QuarterWithinHour(now);
    NeverEarly(t, now);
  }

  lemma ReportedWithinHour(b: Books, r: Report)
    requires Hourly(b) && r.time == b.task.next != 0
    ensures WithinHour(r, b.task.hourStart)
    ensures forall i :: 0 <= i < |b.reports| && b.epochs[i] == |b.hours| ==> HourOf(b.reports[i]) == HourOf(r)
  {
    HourOfWithin(r, b.task.hourStart);
    forall i | 0 <= i < |b.reports| && b.epochs[i] == |b.hours| ensures HourOf(b.reports[i]) == HourOf(r) {
      HourOfWithin(b.reports[i], b.task.hourStart);
    }
  }

  lemma RunKeepsHourly(b: Books, now: int)
    requires Hourly(b) && now >= 0 && !Adopts(b.task, now)
    ensures Hourly(Step(b, Run(now)))
  {
    var r := Tick(b.task, now, b.meterCount, b.meterError);
    RunKeepsOrder(b, now);
    ReportTimesGrow(b.task, now, b.meterCount, b.meterError);
    NextWithinHour(b.task, now, b.meterCount, b.meterError);
    ClosesOnlyAfterReport(b.task, now, b.meterCount, b.meterError);
    if r.report.Some? {
      ReportedWithinHour(b, r.report.value);
    }
  }

  /** Every report counts only calls taken over in its own hour, whatever the clock does from the epoch on, as
      long as no run passes the first hour of the epoch with counts begun in it. */
  lemma {:induction false} HoursAreReportedApart(evs: seq<Event>)
    requires AfterEpoch(evs) && NeverAdopts(evs)
    ensures Hourly(Play(evs))
    decreases |evs|
  {
    if evs != [] {
      HoursAreReportedApart(Init(evs));
      var b := Play(Init(evs));
      if Last(evs).Run? {
        assert evs[|evs| - 1].now >= 0;
        RunKeepsHourly(b, Last(evs).now);
      } else {
        QuietKeepsOrder(b, Play(evs));
      }
    }
  }

  /** All runs take place an hour or more after the epoch. */
  predicate AfterFirstHour(evs: seq<Event>) { forall k :: 0 <= k < |evs| && evs[k].Run? ==> evs[k].now >= HOUR }

  lemma {:induction false} FirstHourIsOver(evs: seq<Event>)
    requires AfterFirstHour(evs)
    ensures AfterEpoch(evs) && NeverAdopts(evs)
    ensures var t := Play(evs).task; t.next != 0 ==> t.hourStart != 0
    decreases |evs|
  {
    if evs != [] {
      FirstHourIsOver(Init(evs));
      if Last(evs).Run? {
        assert evs[|evs| - 1].now >= HOUR;
        assert Last(evs).now / HOUR >= 1;
      }
    }
  }

  /** In practice, with every run an hour or more after the epoch: reports with the same number of closed hours
      before them are dated less than an hour apart. */
  lemma TotalsRestartHourly(evs: seq<Event>, i: nat, j: nat)
    requires AfterFirstHour(evs) && i < j < |Play(evs).reports| == |Play(evs).epochs|
    requires Play(evs).epochs[i] == Play(evs).epochs[j]
    ensures Play(evs).reports[i].time < Play(evs).reports[j].time < Play(evs).reports[i].time + HOUR
  {
    FirstHourIsOver(evs);
    HoursAreReportedApart(evs);
    var r, q := Play(evs).reports[i], Play(evs).reports[j];
    assert HourOf(r) == HourOf(q);
    assert r.time - 1 >= HOUR * HourOf(r) && q.time - 1 < HOUR * HourOf(q) + HOUR;
  }

  /** Otherwise the first hour goes on: once a run has adopted a later hour, the next report counts calls of both. */
  lemma AdoptedHourMixes(b: Books, now: int, later: int)
    requires Timely(b) && b.hours == [] && Adopts(b.task, now)
    requires var t := Step(b, Run(now)).task; t.next <= later < t.hourStart + HOUR
    ensures var b' := Step(Step(b, Run(now)), Run(later));
            && |b'.epochs| == |b'.reports| && !SameHour(b')
            && Last(b'.reports).units == b.task.count + b.meterCount
  {
    var b1 := Step(b, Run(now));
    TruncateIs(now, HOUR);
    TruncateIs(now, QUARTER);
    TruncateIs(later, HOUR);
    RunKeepsOrder(b, now);
    ReportTimesGrow(b.task, now, b.meterCount, b.meterError);
    KeepsCountsExactlyIf(b.task, now, b.meterCount, b.meterError);
    var b2 := Step(b1, Run(later));
    var n := |b.reports|;
    assert b2.epochs[n] == b2.epochs[n + 1] == 0;
    assert HourOf(b2.reports[n]) == 0 && HourOf(b2.reports[n + 1]) >= 1;
  }

  lemma AfterEpochSnoc(evs: seq<Event>, ev: Event)
    requires AfterEpoch(evs) && (ev.Run? ==> ev.now >= 0)
    ensures AfterEpoch(evs + [ev])
  {
    forall k | 0 <= k < |evs| + 1 && (evs + [ev])[k].Run? ensures (evs + [ev])[k].now >= 0 {
      assert k < |evs| ==> (evs + [ev])[k] == evs[k];
    }
  }

  /** A run from the epoch on that has closed no hour and left the reporting task like this. */
  predicate Leaves(evs: seq<Event>, t: Task, count: int, error: int) {
    var b := Play(evs);
    AfterEpoch(evs) && b.task == t && b.hours == [] && b.meterCount == count && b.meterError == error
  }

  lemma LeavesAfterCall(e: Entry)
    ensures Leaves([] + [Publish(e)], Task(0, 0, 0, 0), 1, if e.failed then 1 else 0)
  {
    PlaySnoc([], Publish(e));
    AfterEpochSnoc([], Publish(e));
  }

  lemma LeavesAfterRun(evs: seq<Event>, t: Task, count: int, error: int, now: int)
    requires Leaves(evs, t, count, error) && now >= 0 && !Tick(t, now, count, error).closed
    ensures Leaves(evs + [Run(now)], Tick(t, now, count, error).task, 0, 0)
  {
    PlaySnoc(evs, Run(now));
    AfterEpochSnoc(evs, Run(now));
  }

  lemma FirstTicks(error: int)
    ensures Tick(Task(0, 0, 0, 0), 0, 1, error) == Ticked(Task(1, error, 0, QUARTER), None, false)
    ensures Tick(Task(1, error, 0, QUARTER), QUARTER, 0, 0)
            == Ticked(Task(1, error, 0, 2 * QUARTER), Some(Report(QUARTER, 1, error)), false)
    ensures Tick(Task(1, error, 0, 2 * QUARTER), 3 * HOUR, 0, 0).task == Task(1, error, 3 * HOUR, 3 * HOUR + QUARTER)
  {
  }

  lemma FirstHourMixes(evs: seq<Event>, error: int)
    requires Leaves(evs, Task(1, error, 0, 2 * QUARTER), 0, 0)
    ensures var b := Play(evs + [Run(3 * HOUR)] + [Run(3 * HOUR + QUARTER)]);
            |b.epochs| == |b.reports| > 0 && !SameHour(b) && Last(b.reports).units == 1
  {
    FirstTicks(error);
    NothingIsDropped(evs);
    PlaySnoc(evs, Run(3 * HOUR));
    PlaySnoc(evs + [Run(3 * HOUR)], Run(3 * HOUR + QUARTER));
    AdoptedHourMixes(Play(evs), 3 * HOUR, 3 * HOUR + QUARTER);
  }

  /** A call of the first hour of the epoch is still counted in a report about the fourth. */
  lemma FirstHourIsNotClosed(e: Entry)
    ensures var b := Play([] + [Publish(e)] + [Run(0)] + [Run(QUARTER)] + [Run(3 * HOUR)] + [Run(3 * HOUR + QUARTER)]);
            |b.epochs| == |b.reports| > 0 && !SameHour(b) && Last(b.reports).units == 1
  {
    var error := if e.failed then 1 else 0;
    var evs := [] + [Publish(e)];
    FirstTicks(error);
    LeavesAfterCall(e);
    LeavesAfterRun(evs, Task(0, 0, 0, 0), 1, error, 0);
    LeavesAfterRun(evs + [Run(0)], Task(1, error, 0, QUARTER), 0, 0, QUARTER);
    FirstHourMixes(evs + [Run(0)] + [Run(QUARTER)], error);
  }

  /** The books with one call of an hour that began before the epoch. */
  function EarlyHour(e: Entry): Books {
    Books(Task(1, if e.failed then 1 else 0, -2 * HOUR, -2 * HOUR + QUARTER), 0, 0, [], [], [], [e], None, [])
  }

  lemma EarlyHourBegins(e: Entry)
    ensures Step(Step(OPENED, Publish(e)), Run(-2 * HOUR)) == EarlyHour(e)
  {
  }

  lemma EarlyHourCloses(e: Entry)
    ensures var b := Step(EarlyHour(e), Run(-2 * HOUR + 1));
            b.hours == [Hour(None, [], [e])] && b.reports == [] && b.task.count == 0 && b.meterCount == 0
  {
    var b := EarlyHour(e);
    var b' := TakenOver(b, Tick(b.task, -2 * HOUR + 1, 0, 0));
    assert b'.current == [e] && b'.current[..0] == [] && b'.current[0..] == [e];
    assert Close(b').hours == [Hour(None, [], [e])];
  }

  /** Before the epoch the truncation rounds up: this run publishes a call, and afterwards no report, no
      counter and no meter knows of it. */
  lemma BeforeEpochACallIsLost(e: Entry)
    ensures var evs := [] + [Publish(e)] + [Run(-2 * HOUR)] + [Run(-2 * HOUR + 1)];
            var b := Play(evs);
            && Published(evs) == [e] && b.hours == [Hour(None, [], [e])] && b.reports == []
            && b.task.count == 0 && b.meterCount == 0
  {
    var e1 := [] + [Publish(e)];
    PlaySnoc([], Publish(e));
    PlaySnoc(e1, Run(-2 * HOUR));
    PlaySnoc(e1 + [Run(-2 * HOUR)], Run(-2 * HOUR + 1));
    EarlyHourBegins(e);
    EarlyHourCloses(e);
  }

  lemma PlaySnoc(evs: seq<Event>, ev: Event)
    ensures Play(evs + [ev]) == Step(Play(evs), ev)
    ensures Published(evs + [ev]) == Published(evs) + if ev.Publish? then [ev.entry] else []
  {
    assert Init(evs + [ev]) == evs;
  }

  // ---------------------------------------------------------------------------------------------
  // The imperative form.

  class MeterLLM {
    var meterCount: int
    var meterError: int
    var activeStat: Gauge.Gauge

    constructor ()
      ensures meterCount == 0 && meterError == 0 && activeStat == map[]
    {
      meterCount, meterError, activeStat := 0, 0, map[];
    }

    /** `victim` is the entry that a full map drops. */
    method OnStart(key: Gauge.Key, victim: Gauge.Key)
      modifies this`activeStat
      ensures activeStat == Gauge.OnStartBounded(old(activeStat), key, victim)
    {
      if key in activeStat {
        activeStat := activeStat[key := activeStat[key] + 1];
        return;
      }
      if |activeStat| >= Gauge.KEY_MAX {
        activeStat := activeStat - {victim};
      }
      activeStat := activeStat[key := 1];
    }

    method OnEnd(key: Gauge.Key)
      modifies this`activeStat
      ensures activeStat == Gauge.OnEnd(old(activeStat), key)
    {
      if key !in activeStat {
        return;
      }
      var count := activeStat[key] - 1;
      activeStat := activeStat[key := count];
      if count <= 0 {
        activeStat := activeStat - {key};
      }
    }

    method IncrementMeter()
      modifies this`meterCount
      ensures meterCount == old(meterCount) + 1
    {
      meterCount := meterCount + 1;
    }

    method IncrementMeterError()
      modifies this`meterError
      ensures meterError == old(meterError) + 1
    {
      meterError := meterError + 1;
    }

    /** Takes the two counters and starts them again. */
    method GetBucketReset() returns (count: int, error: int)
      modifies this`meterCount, this`meterError
      ensures (count, error) == (old(meterCount), old(meterError))
      ensures meterCount == 0 && meterError == 0
    {
      count, error := meterCount, meterError;
      meterCount, meterError := 0, 0;
    }
  }

  class TaskLLM {
    var currentCount: int
    var currentError: int
    var currentHourStart: int
    var next15minTime: int
    var sent: seq<Report>

    ghost function View(): Task
      reads this
    {
      Task(currentCount, currentError, currentHourStart, next15minTime)
    }

    constructor ()
      ensures View() == Task(0, 0, 0, 0) && sent == []
    {
      currentCount, currentError, currentHourStart, next15minTime, sent := 0, 0, 0, 0, [];
    }

    static function Quotient(a: int, b: int): int
      requires b > 0
    {
      if a >= 0 then a / b else -((-a) / b)
    }

    method Process(meter: MeterLLM, now: int)
      modifies this, meter
      ensures var r := Tick(old(View()), now, old(meter.meterCount), old(meter.meterError));
              && View() == r.task
              && sent == old(sent) + if r.report.Some? then [r.report.value] else []
      ensures meter.meterCount == 0 && meter.meterError == 0
    {
      var count, error := meter.GetBucketReset();
      currentCount := currentCount + count;
      currentError := currentError + error;
      if currentHourStart == 0 {
        currentHourStart := Quotient(now, HOUR) * HOUR;
      }
      if next15minTime == 0 {
        next15minTime := Quotient(now, QUARTER) * QUARTER + QUARTER;
      }
      if now >= next15minTime {
        sent := sent + [Report(next15minTime, currentCount, currentError)];
        next15minTime := Quotient(now, QUARTER) * QUARTER + QUARTER;
      }
      var hourStart := Quotient(now, HOUR) * HOUR;
      if hourStart > currentHourStart {
        currentCount := 0;
        currentError := 0;
        currentHourStart := hourStart;
      }
    }
  }
}
