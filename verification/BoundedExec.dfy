/**
 * A bounded child process (exec in src/runners.ts): one latch, three timers and the kill
 * flags, driven by whatever order of data, timer, close and error events arrives.
 */
module BoundedExecs {
  import opened Prelude
  import opened Text

  /** What was configured; the notes are the lines the hard and idle timers append to the output. */
  datatype ExecOpts = ExecOpts(
    allowFail: bool,
    hard: bool,
    idle: bool,
    grace: bool,
    signals: seq<string>,
    hardNote: string,
    idleNote: string)

  datatype Event =
    | Data(chunk: string)
    | HardFires
    | IdleFires
    | GraceFires
    | Closes(code: Option<int>)
    | Fails(message: string)

  datatype SettleReason = Clean | ErrorReason | IdleTimeout | CompletionGrace

  datatype Settlement = Resolved(code: int, output: string) | Rejected(output: string)

  datatype State = State(
    output: string,
    inGraceMode: bool,
    timedOut: bool,
    idleKilled: bool,
    graceKilled: bool,
    hardArmed: bool,
    idleArmed: bool,
    graceArmed: bool,
    reports: seq<SettleReason>,
    result: Option<Settlement>)
  {
    predicate Settled() {
      result.Some?
    }

    predicate Armed() {
      hardArmed || idleArmed || graceArmed
    }
  }

  predicate Signalled(opts: ExecOpts, output: string) {
    exists k :: 0 <= k < |opts.signals| && Includes(output, opts.signals[k])
  }

  function Spawned(opts: ExecOpts): State {
    State("", false, false, false, false, opts.hard, opts.idle, false, [], None)
  }

  /** done(): the first caller settles, clears every timer and reports. */
  function Done(s: State, reason: SettleReason, settlement: Settlement): State {
    if s.Settled() then s
    else s.(hardArmed := false, idleArmed := false, graceArmed := false,
            reports := s.reports + [reason], result := Some(settlement))
  }

  /** The code a closing child is credited with. */
  function FinalCode(s: State, code: Option<int>): int {
    if !s.timedOut then if code.Some? then code.value else 0
    else if code.Some? && code.value != 0 then code.value else 124
  }

  /** A timer fires only while it is armed. */
  predicate MayHappen(s: State, e: Event) {
    match e
    case HardFires => s.hardArmed
    case IdleFires => s.idleArmed
    case GraceFires => s.graceArmed
    case _ => true
  }

  /** onData: switch to the grace period once, else re-arm the timer of the current mode. */
  function Heard(opts: ExecOpts, s: State, chunk: string): State {
    var heard := s.(output := s.output + chunk);
    if !s.inGraceMode && Signalled(opts, heard.output) then
      heard.(inGraceMode := true, idleArmed := false, graceArmed := s.graceArmed || opts.grace)
    else if s.inGraceMode then
      heard.(graceArmed := s.graceArmed || opts.grace)
    else
      heard.(idleArmed := s.idleArmed || opts.idle)
  }

  /** The close handler. */
  function Close(opts: ExecOpts, s: State, code: Option<int>): State {
    if s.graceKilled then Done(s, CompletionGrace, Resolved(0, s.output))
    else if s.idleKilled then
      Done(s, IdleTimeout, if opts.allowFail then Resolved(124, s.output) else Rejected(s.output))
    else if s.timedOut && !opts.allowFail then Done(s, ErrorReason, Rejected(s.output))
    else if FinalCode(s, code) == 0 || opts.allowFail then Done(s, Clean, Resolved(FinalCode(s, code), s.output))
    else Done(s, ErrorReason, Rejected(s.output))
  }

  function Step(opts: ExecOpts, s: State, e: Event): State {
    match e
    case Data(chunk) => Heard(opts, s, chunk)
    case HardFires => s.(hardArmed := false, timedOut := true, output := s.output + opts.hardNote)
    case IdleFires => s.(idleArmed := false, idleKilled := true, output := s.output + opts.idleNote)
    case GraceFires => s.(graceArmed := false, graceKilled := true)
    case Closes(code) => Close(opts, s, code)
    case Fails(message) =>
      Done(s, ErrorReason, if opts.allowFail then Resolved(127, s.output + message) else Rejected(message))
  }

  /** Where a run stands after these events. */
  function After(opts: ExecOpts, run: seq<Event>): State {
    if run == [] then Spawned(opts) else Step(opts, After(opts, Init(run)), Last(run))
  }

  /** Timers fire only while armed; otherwise anything, in any order. */
  predicate Possible(opts: ExecOpts, run: seq<Event>) {
    run != [] ==> Possible(opts, Init(run)) && MayHappen(After(opts, Init(run)), Last(run))
  }

  lemma AfterAppend(opts: ExecOpts, run: seq<Event>, e: Event)
    ensures After(opts, run + [e]) == Step(opts, After(opts, run), e)
    ensures Possible(opts, run + [e]) <==> Possible(opts, run) && MayHappen(After(opts, run), e)
  {
    InitOfAppend(run, e);
  }

  // ----- the handlers -----

  class ChildRun {
    const opts: ExecOpts
    var output: string
    var inGraceMode: bool
    var timedOut: bool
    var idleKilled: bool
    var graceKilled: bool
    var hardArmed: bool
    var idleArmed: bool
    var graceArmed: bool
    var settled: bool
    var result: Option<Settlement>
    ghost var reports: seq<SettleReason>
    ghost var history: seq<Event>

    ghost function View(): State
      reads this
    {
      State(output, inGraceMode, timedOut, idleKilled, graceKilled, hardArmed, idleArmed, graceArmed, reports, result)
    }

    ghost predicate Valid()
      reads this
    {
      Possible(opts, history) && View() == After(opts, history) && settled == result.Some?
    }

    constructor (opts: ExecOpts)
      ensures Valid() && this.opts == opts && history == []
    {
      this.opts := opts;
      output, inGraceMode, timedOut, idleKilled, graceKilled := "", false, false, false, false;
      hardArmed, idleArmed, graceArmed := opts.hard, opts.idle, false;
      settled, result, reports, history := false, None, [], [];
    }

    /** The single-settle latch. */
    method SettleOnce(reason: SettleReason, settlement: Settlement)
      requires settled == result.Some?
      modifies this
      ensures settled && result.Some? && history == old(history)
      ensures View() == Done(old(View()), reason, settlement)
    {
      if settled {
        return;
      }
      settled := true;
      hardArmed, idleArmed, graceArmed := false, false, false;
      reports := reports + [reason];
      result := Some(settlement);
    }

    method ArmIdleTimer()
      modifies this`idleArmed
      ensures idleArmed == (old(idleArmed) || (opts.idle && !inGraceMode))
    {
      if !opts.idle || inGraceMode {
        return;
      }
      idleArmed := true;
    }

    method ArmGraceTimer()
      modifies this`graceArmed
      ensures graceArmed == (old(graceArmed) || opts.grace)
    {
      if !opts.grace {
        return;
      }
      graceArmed := true;
    }

    /** Scan the output for a signal and (re-)arm the timer of the resulting mode. */
    method Hear(chunk: string)
      modifies this`output, this`inGraceMode, this`idleArmed, this`graceArmed
      ensures View() == Heard(opts, old(View()), chunk)
    {
      hide Signalled;
      output := output + chunk;
      if !inGraceMode && Signalled(opts, output) {
        inGraceMode := true;
        idleArmed := false;
        ArmGraceTimer();
        return;
      }
      if inGraceMode {
        ArmGraceTimer();
      } else {
        ArmIdleTimer();
      }
    }

    method OnData(chunk: string)
      requires Valid()
      modifies this
      ensures Valid() && history == old(history) + [Data(chunk)]
    {
      hide After, Possible, Heard;
      AfterAppend(opts, history, Data(chunk));
      history := history + [Data(chunk)];
      Hear(chunk);
    }

    method OnHardTimer()
      requires Valid() && hardArmed
      modifies this
      ensures Valid() && history == old(history) + [HardFires]
    {
      hide After, Possible;
      AfterAppend(opts, history, HardFires);
      history := history + [HardFires];
      hardArmed, timedOut := false, true;
      output := output + opts.hardNote;
    }

    method OnIdleTimer()
      requires Valid() && idleArmed
      modifies this
      ensures Valid() && history == old(history) + [IdleFires]
    {
      hide After, Possible;
      AfterAppend(opts, history, IdleFires);
      history := history + [IdleFires];
      idleArmed, idleKilled := false, true;
      output := output + opts.idleNote;
    }

    method OnGraceTimer()
      requires Valid() && graceArmed
      modifies this
      ensures Valid() && history == old(history) + [GraceFires]
    {
      hide After, Possible;
      AfterAppend(opts, history, GraceFires);
      history := history + [GraceFires];
      graceArmed, graceKilled := false, true;
    }

    method OnClose(code: Option<int>)
      requires Valid()
      modifies this
      ensures Valid() && history == old(history) + [Closes(code)] && settled
    {
      hide After, Possible;
      AfterAppend(opts, history, Closes(code));
      history := history + [Closes(code)];
      if graceKilled {
        SettleOnce(CompletionGrace, Resolved(0, output));
        return;
      }
      if idleKilled {
        if opts.allowFail {
          SettleOnce(IdleTimeout, Resolved(124, output));
        } else {
          SettleOnce(IdleTimeout, Rejected(output));
        }
        return;
      }
      var finalCode :=
        if timedOut then if code.Some? && code.value != 0 then code.value else 124
        else if code.Some? then code.value else 0;
      if timedOut && !opts.allowFail {
        SettleOnce(ErrorReason, Rejected(output));
        return;
      }
      if finalCode == 0 || opts.allowFail {
        SettleOnce(Clean, Resolved(finalCode, output));
      } else {
        SettleOnce(ErrorReason, Rejected(output));
      }
    }

    method OnError(message: string)
      requires Valid()
      modifies this
      ensures Valid() && history == old(history) + [Fails(message)] && settled
    {
      hide After, Possible;
      AfterAppend(opts, history, Fails(message));
      history := history + [Fails(message)];
      if opts.allowFail {
        SettleOnce(ErrorReason, Resolved(127, output + message));
      } else {
        SettleOnce(ErrorReason, Rejected(message));
      }
    }
  }

  // ----- every run -----

  predicate Ends(e: Event) {
    e.Closes? || e.Fails?
  }

  predicate Unended(run: seq<Event>) {
    forall e :: e in run ==> !Ends(e)
  }

  /** What holds of a run until it settles, given which timers have fired. */
  predicate Unsettled(opts: ExecOpts, s: State, hardFired: bool, idleFired: bool, graceFired: bool) {
    && !s.Settled() && s.reports == []
    && s.timedOut == hardFired && s.idleKilled == idleFired && s.graceKilled == graceFired
    && (!s.timedOut ==> s.hardArmed == opts.hard)
    && (!s.idleKilled && !s.graceKilled ==>
          && s.idleArmed == (opts.idle && !s.inGraceMode)
          && s.graceArmed == (opts.grace && s.inGraceMode))
  }

  lemma StepKeepsUnsettled(opts: ExecOpts, s: State, e: Event, h: bool, i: bool, g: bool)
    requires Unsettled(opts, s, h, i, g) && !Ends(e)
    ensures Unsettled(opts, Step(opts, s, e), h || e.HardFires?, i || e.IdleFires?, g || e.GraceFires?)
  {
    hide Signalled;
  }

  /**
   * Until it settles, a run's flags are the timers that fired, and while it is neither killed
   * nor settled the timer due is exactly the configured one: idle before the signal, grace after.
   */
  lemma {:induction false} BeforeSettling(opts: ExecOpts, run: seq<Event>)
    requires Unended(run)
    ensures Unsettled(opts, After(opts, run), HardFires in run, IdleFires in run, GraceFires in run)
  {
    hide Step, Unsettled;
    if run == [] {
      assert Unsettled(opts, Spawned(opts), false, false, false) by { SpawnedIsUnsettled(opts); }
    } else {
      var before, e := Init(run), Last(run);
      assert run == before + [e];
      assert Unended(before) && e in run;
      BeforeSettling(opts, before);
      StepKeepsUnsettled(opts, After(opts, before), e, HardFires in before, IdleFires in before, GraceFires in before);
      assert HardFires in run <==> HardFires in before || e.HardFires?;
      assert IdleFires in run <==> IdleFires in before || e.IdleFires?;
      assert GraceFires in run <==> GraceFires in before || e.GraceFires?;
    }
  }

  lemma SpawnedIsUnsettled(opts: ExecOpts)
    ensures Unsettled(opts, Spawned(opts), false, false, false)
  {
  }

  lemma LatchHolds(opts: ExecOpts, s: State, e: Event)
    requires s.Settled()
    ensures Step(opts, s, e).result == s.result && Step(opts, s, e).reports == s.reports
  {
    hide Signalled, FinalCode;
    match e
    case Data(_) =>
    case Closes(_) =>
    case _ =>
  }

  /** The latch: what the first end decided is never revised, and reported once. */
  lemma {:induction false} SettlesOnce(opts: ExecOpts, run: seq<Event>, rest: seq<Event>)
    requires After(opts, run).Settled()
    ensures After(opts, run + rest).result == After(opts, run).result
    ensures After(opts, run + rest).reports == After(opts, run).reports
  {
    hide Step;
    if rest == [] {
      assert run + rest == run;
    } else {
      SettlesOnce(opts, run, Init(rest));
      assert Init(run + rest) == run + Init(rest) && Last(run + rest) == Last(rest);
      LatchHolds(opts, After(opts, run + Init(rest)), Last(rest));
    }
  }

  /** The first end of a run: the events before it, and that event. */
  lemma FirstEnd(run: seq<Event>) returns (k: nat)
    ensures k <= |run| && Unended(run[..k]) && (k < |run| ==> Ends(run[k]))
  {
    k := 0;
    while k < |run| && !Ends(run[k])
      invariant k <= |run| && Unended(run[..k])
    {
      assert run[..k + 1] == run[..k] + [run[k]];
      k := k + 1;
    }
  }

  /** Everything a run can come to, by the events before its first end and that end alone. */
  lemma RunSettlesAtFirstEnd(opts: ExecOpts, before: seq<Event>, end: Event, rest: seq<Event>)
    requires Unended(before) && Ends(end)
    ensures var s := After(opts, before + [end] + rest);
            && s.Settled() && |s.reports| == 1
            && s.result == Step(opts, After(opts, before), end).result
            && s.reports == Step(opts, After(opts, before), end).reports
  {
    BeforeSettling(opts, before);
    InitOfAppend(before, end);
    SettlesOnce(opts, before + [end], rest);
  }

  /** A run has settled exactly when an end arrived, and has reported exactly once by then. */
  lemma SettledIff(opts: ExecOpts, run: seq<Event>)
    ensures After(opts, run).Settled() <==> !Unended(run)
    ensures |After(opts, run).reports| == if Unended(run) then 0 else 1
  {
    var k := FirstEnd(run);
    if k < |run| {
      assert run == run[..k] + [run[k]] + run[k + 1..];
      RunSettlesAtFirstEnd(opts, run[..k], run[k], run[k + 1..]);
      assert run[k] in run;
    } else {
      assert run[..k] == run;
      BeforeSettling(opts, run);
    }
  }

  /** What these events put into the output: the chunks, and the note of every kill that leaves one. */
  function Captured(opts: ExecOpts, run: seq<Event>): string {
    if run == [] then ""
    else
      (match run[0]
       case Data(chunk) => chunk
       case HardFires => opts.hardNote
       case IdleFires => opts.idleNote
       case _ => "")
      + Captured(opts, run[1..])
  }

  lemma {:induction false} CapturedSnoc(opts: ExecOpts, run: seq<Event>, e: Event)
    ensures Captured(opts, run + [e]) == Captured(opts, run) + Captured(opts, [e])
  {
    if run == [] {
      assert [] + [e] == [e];
    } else {
      CapturedSnoc(opts, run[1..], e);
      assert (run + [e])[1..] == run[1..] + [e];
    }
  }

  /** Until it settles, and after, a run's output is what its events put there. */
  lemma {:induction false} OutputIsCaptured(opts: ExecOpts, run: seq<Event>)
    ensures After(opts, run).output == Captured(opts, run)
  {
    if run != [] {
      OutputIsCaptured(opts, Init(run));
      CapturedSnoc(opts, Init(run), Last(run));
      assert run == Init(run) + [Last(run)];
      StepOutput(opts, After(opts, Init(run)), Last(run));
      hide Step, Captured;
    }
  }

  lemma StepOutput(opts: ExecOpts, s: State, e: Event)
    ensures Step(opts, s, e).output == s.output + Captured(opts, [e])
  {
    hide Signalled, FinalCode;
    assert [e][1..] == [];
  }

  /**
   * Exactly what a run comes to, whatever follows its first end. A child that closes is judged by
   * the timers that fired before: grace, else idle, else hard, else its own code; it resolves with
   * all it printed, and is rejected with it where a failure is not allowed. An error is a failure.
   */
  lemma ResultIs(opts: ExecOpts, before: seq<Event>, end: Event, rest: seq<Event>)
    requires Unended(before) && Ends(end)
    ensures var s, said := After(opts, before + [end] + rest), Captured(opts, before);
            && s.result.Some? && |s.reports| == 1
            && (end.Closes? && GraceFires in before ==>
                  s.result.value == Resolved(0, said) && s.reports == [CompletionGrace])
            && (end.Closes? && GraceFires !in before && IdleFires in before ==>
                  && s.result.value == (if opts.allowFail then Resolved(124, said) else Rejected(said))
                  && s.reports == [IdleTimeout])
            && (end.Closes? && GraceFires !in before && IdleFires !in before && HardFires in before ==>
                  if !opts.allowFail then s.result.value == Rejected(said) && s.reports == [ErrorReason]
                  else
                    && s.reports == [Clean]
                    && s.result.value == Resolved(
                         if end.code.None? || end.code.value == 0 then 124 else end.code.value, said))
            && (end.Closes? && GraceFires !in before && IdleFires !in before && HardFires !in before ==>
                  if end.code.None? || end.code.value == 0
                  then s.result.value == Resolved(0, said) && s.reports == [Clean]
                  else if opts.allowFail
                  then s.result.value == Resolved(end.code.value, said) && s.reports == [Clean]
                  else s.result.value == Rejected(said) && s.reports == [ErrorReason])
    ensures var s, said := After(opts, before + [end] + rest), Captured(opts, before);
            end.Fails? ==>
              && s.result == Some(if opts.allowFail then Resolved(127, said + end.message) else Rejected(end.message))
              && s.reports == [ErrorReason]
  {
    RunSettlesAtFirstEnd(opts, before, end, rest);
    BeforeSettling(opts, before);
    OutputIsCaptured(opts, before);
    hide After, Captured;
  }

  /** A run is in its grace period exactly when the output held a signal after some chunk. */
  lemma InGraceIff(opts: ExecOpts, run: seq<Event>)
    ensures After(opts, run).inGraceMode <==>
            exists k, j :: 0 <= k < |run| && run[k].Data? && 0 <= j < |opts.signals|
                           && Includes(Captured(opts, run[..k + 1]), opts.signals[j])
  {
    SignalledIff(opts, run);
    if k :| 0 <= k < |run| && run[k].Data? && Signalled(opts, Captured(opts, run[..k + 1])) {
      var j :| 0 <= j < |opts.signals| && Includes(Captured(opts, run[..k + 1]), opts.signals[j]);
    }
    if k, j :| 0 <= k < |run| && run[k].Data? && 0 <= j < |opts.signals|
               && Includes(Captured(opts, run[..k + 1]), opts.signals[j]) {
      assert Signalled(opts, Captured(opts, run[..k + 1]));
    }
    hide Captured, After, Includes;
  }

  lemma {:induction false} SignalledIff(opts: ExecOpts, run: seq<Event>)
    ensures After(opts, run).inGraceMode <==>
            exists k :: 0 <= k < |run| && run[k].Data? && Signalled(opts, Captured(opts, run[..k + 1]))
  {
    hide Signalled, Captured;
    if run != [] {
      var before, e := Init(run), Last(run);
      SignalledIff(opts, before);
      OutputIsCaptured(opts, run);
      GraceStep(opts, After(opts, before), e);
      hide Step;
      assert run[..|run|] == run;
      assert forall k :: 0 <= k < |before| ==> before[..k + 1] == run[..k + 1] && before[k] == run[k];
      if k: int :| 0 <= k < |before| && before[k].Data? && Signalled(opts, Captured(opts, before[..k + 1])) {
        assert run[k].Data? && Signalled(opts, Captured(opts, run[..k + 1]));
      }
      if e.Data? && Signalled(opts, Captured(opts, run)) {
        assert run[|run| - 1].Data? && Signalled(opts, Captured(opts, run[..|run| - 1 + 1]));
      }
    }
  }

  lemma GraceStep(opts: ExecOpts, s: State, e: Event)
    ensures Step(opts, s, e).inGraceMode <==> s.inGraceMode || (e.Data? && Signalled(opts, Step(opts, s, e).output))
  {
    hide Signalled;
    match e
    case Data(chunk) => hide Done, Close, FinalCode;
    case Closes(code) => CloseKeepsMode(opts, s, code);
    case _ => hide Close, Heard;
  }

  lemma CloseKeepsMode(opts: ExecOpts, s: State, code: Option<int>)
    ensures Close(opts, s, code).inGraceMode == s.inGraceMode
  {
    hide FinalCode;
  }

  /** Success, over all runs: granted after the completion grace, or a clean zero with no timer fired. */
  lemma ResolvesZeroIff(opts: ExecOpts, before: seq<Event>, end: Event, rest: seq<Event>)
    requires Unended(before) && Ends(end)
    ensures var r := After(opts, before + [end] + rest).result;
            r.Some? && ((r.value.Resolved? && r.value.code == 0) <==>
              end.Closes?
              && (GraceFires in before
                  || (IdleFires !in before && HardFires !in before && (end.code.None? || end.code.value == 0))))
  {
    RunSettlesAtFirstEnd(opts, before, end, rest);
    BeforeSettling(opts, before);
  }

  /** What each reported reason says about the result. */
  lemma ReasonsMean(opts: ExecOpts, before: seq<Event>, end: Event, rest: seq<Event>)
    requires Unended(before) && Ends(end)
    ensures var s := After(opts, before + [end] + rest);
            s.reports != [] && s.result.Some? &&
            var reason, result := s.reports[0], s.result.value;
            && (reason.CompletionGrace? <==> end.Closes? && GraceFires in before)
            && (reason.CompletionGrace? ==> result.Resolved? && result.code == 0)
            && (reason.IdleTimeout? <==> end.Closes? && GraceFires !in before && IdleFires in before)
            && (reason.IdleTimeout? ==> result == if opts.allowFail then Resolved(124, result.output)
                 else Rejected(result.output))
            && (reason.Clean? ==> result.Resolved?)
            && (reason.ErrorReason? ==> result.Rejected? || (opts.allowFail && result.code == 127))
            && (end.Fails? ==> reason.ErrorReason?)
  {
    RunSettlesAtFirstEnd(opts, before, end, rest);
    BeforeSettling(opts, before);
  }

  /**
   * A child that closes after a hard timeout passes for a success exactly when the grace timer
   * fired too; with no other timer fired, an error is reported exactly when failure is not allowed.
   */
  lemma HardTimeoutReports(opts: ExecOpts, before: seq<Event>, code: Option<int>, rest: seq<Event>)
    requires Unended(before) && HardFires in before
    ensures var s := After(opts, before + [Closes(code)] + rest);
            && s.Settled() && |s.reports| == 1
            && ((s.result.value.Resolved? && s.result.value.code == 0) <==> GraceFires in before)
            && (IdleFires !in before && GraceFires !in before ==>
                  s.reports[0] == if opts.allowFail then Clean else ErrorReason)
  {
    RunSettlesAtFirstEnd(opts, before, Closes(code), rest);
    BeforeSettling(opts, before);
  }

  lemma IncludesKeeps(output: string, more: string, signal: string)
    requires Includes(output, signal)
    ensures Includes(output + more, signal)
  {
    var i :| 0 <= i <= |output| - |signal| && FoundAt(output, signal, i);
    assert (output + more)[i..i + |signal|] == output[i..i + |signal|];
    assert FoundAt(output + more, signal, i);
  }

  lemma SignalledKeeps(opts: ExecOpts, output: string, more: string)
    requires Signalled(opts, output)
    ensures Signalled(opts, output + more)
  {
    var k :| 0 <= k < |opts.signals| && Includes(output, opts.signals[k]);
    IncludesKeeps(output, more, opts.signals[k]);
  }

  /** The grace period was entered for a signal, and nothing idles in it. */
  predicate GraceGrounded(opts: ExecOpts, s: State) {
    && (s.inGraceMode ==> Signalled(opts, s.output))
    && (s.graceArmed || s.graceKilled ==> s.inGraceMode)
    && (s.inGraceMode ==> !s.idleArmed)
  }

  lemma StepKeepsGraceGrounded(opts: ExecOpts, s: State, e: Event)
    requires GraceGrounded(opts, s) && MayHappen(s, e)
    ensures GraceGrounded(opts, Step(opts, s, e))
  {
    if s.inGraceMode {
      match e
      case Data(chunk) => SignalledKeeps(opts, s.output, chunk);
      case HardFires => SignalledKeeps(opts, s.output, opts.hardNote);
      case IdleFires => SignalledKeeps(opts, s.output, opts.idleNote);
      case _ =>
    }
    hide Signalled;
  }

  /** In any possible run the grace period rests on a signal in the output, so success by grace does too. */
  lemma {:induction false} GraceRestsOnSignal(opts: ExecOpts, run: seq<Event>)
    requires Possible(opts, run)
    ensures GraceGrounded(opts, After(opts, run))
  {
    hide Step, Signalled;
    if run != [] {
      GraceRestsOnSignal(opts, Init(run));
      StepKeepsGraceGrounded(opts, After(opts, Init(run)), Last(run));
    }
  }

  // ----- timers after settling -----

  /** Settling leaves no timer behind. */
  lemma SettlingDisarms(opts: ExecOpts, s: State, e: Event)
    requires !s.Settled() && Ends(e)
    ensures Step(opts, s, e).Settled() && !Step(opts, s, e).Armed()
  {
  }

  /** Nothing but late output can arm a timer again. */
  lemma {:induction false} QuietAfterSettling(opts: ExecOpts, before: seq<Event>, end: Event, rest: seq<Event>)
    requires Unended(before) && Ends(end)
    requires forall e :: e in rest ==> !e.Data?
    ensures !After(opts, before + [end] + rest).Armed()
    decreases rest
  {
    if rest == [] {
      BeforeSettling(opts, before);
      InitOfAppend(before, end);
      assert before + [end] + rest == before + [end];
    } else {
      QuietAfterSettling(opts, before, end, Init(rest));
      RunSettlesAtFirstEnd(opts, before, end, Init(rest));
      assert Init(before + [end] + rest) == before + [end] + Init(rest);
      assert Last(before + [end] + rest) == Last(rest);
      assert Last(rest) in rest;
    }
  }

  /**
   * Output that arrives after the run has settled arms a timer again exactly when the timer of
   * its mode is configured: the data handler does not look at the latch.
   */
  lemma LateOutputRearms(opts: ExecOpts, s: State, chunk: string)
    requires s.Settled() && !s.Armed()
    ensures var next := Step(opts, s, Data(chunk));
            next.Armed() <==> if s.inGraceMode || Signalled(opts, s.output + chunk) then opts.grace else opts.idle
  {
  }

  // ----- which options let a timer outlive the run -----

  predicate Fires(e: Event) {
    e.HardFires? || e.IdleFires? || e.GraceFires?
  }

  predicate SomeFired(run: seq<Event>) {
    exists e :: e in run && Fires(e)
  }

  /**
   * The child can still print: its streams have not closed, and every error was a kill that
   * failed, which takes a timer that fired, not a spawn that failed.
   */
  predicate Live(run: seq<Event>) {
    run != [] ==>
      && Live(Init(run)) && !Last(run).Closes?
      && (Last(run).Fails? ==> SomeFired(Init(run)))
  }

  /** What a child process can make happen: output comes from a live child, in chunks of something. */
  predicate Receivable(opts: ExecOpts, run: seq<Event>) {
    run != [] ==>
      && Receivable(opts, Init(run)) && MayHappen(After(opts, Init(run)), Last(run))
      && (Last(run).Data? ==> Last(run).chunk != "" && Live(Init(run)))
      && (Last(run).Fails? ==> Init(run) == [] || SomeFired(Init(run)))
  }

  lemma {:induction false} ReceivableIsPossible(opts: ExecOpts, run: seq<Event>)
    requires Receivable(opts, run)
    ensures Possible(opts, run)
  {
    if run != [] {
      ReceivableIsPossible(opts, Init(run));
    }
  }

  /** Some output after this text completes no signal. */
  ghost predicate LeavesRoom(opts: ExecOpts, text: string) {
    exists more: string :: more != "" && !Signalled(opts, text + more)
  }

  /**
   * Options under which a timer can be armed again: a grace timer that some signal can start, or an
   * idle timer, if the line that reports the kill is not itself a completion signal.
   */
  ghost predicate Rearmable(opts: ExecOpts) {
    || (opts.grace && opts.signals != [])
    || (opts.idle && (LeavesRoom(opts, opts.idleNote) || (opts.hard && LeavesRoom(opts, opts.hardNote))))
  }

  predicate Killed(s: State) {
    s.timedOut || s.idleKilled || s.graceKilled
  }

  lemma KilledStep(opts: ExecOpts, s: State, e: Event)
    ensures Killed(Step(opts, s, e)) <==> Killed(s) || Fires(e)
  {
    hide Signalled, FinalCode;
  }

  lemma FiredAppend(run: seq<Event>, e: Event)
    ensures SomeFired(run + [e]) <==> SomeFired(run) || Fires(e)
  {
    if SomeFired(run) {
      var x :| x in run && Fires(x);
      assert x in run + [e];
    }
    assert e in run + [e];
  }

  lemma {:induction false} KilledIff(opts: ExecOpts, run: seq<Event>)
    ensures Killed(After(opts, run)) <==> SomeFired(run)
  {
    hide Step;
    if run != [] {
      KilledIff(opts, Init(run));
      KilledStep(opts, After(opts, Init(run)), Last(run));
      FiredAppend(Init(run), Last(run));
      assert run == Init(run) + [Last(run)];
      hide SomeFired, Killed, Fires;
    }
  }

  /** A live child whose run has settled was killed in vain. */
  lemma {:induction false} LiveAndSettled(opts: ExecOpts, run: seq<Event>)
    requires Live(run) && After(opts, run).Settled()
    ensures SomeFired(run)
  {
    SettledIff(opts, run);
    var e :| e in run && Ends(e);
    LiveEnds(run, e);
  }

  lemma {:induction false} LiveEnds(run: seq<Event>, e: Event)
    requires Live(run) && e in run && Ends(e)
    ensures SomeFired(run)
  {
    assert run == Init(run) + [Last(run)];
    if e in Init(run) {
      LiveEnds(Init(run), e);
    }
    var x :| x in Init(run) && Fires(x);
    assert x in run;
  }

  /** The timers are the configured ones, a kill left its note, and a timer after settling needs the options for it. */
  ghost predicate Configured(opts: ExecOpts, s: State) {
    && (s.hardArmed ==> opts.hard) && (s.idleArmed ==> opts.idle) && (s.graceArmed ==> opts.grace)
    && (s.timedOut ==> opts.hard && Includes(s.output, opts.hardNote))
    && (s.idleKilled ==> opts.idle && Includes(s.output, opts.idleNote))
    && (s.Settled() && s.Armed() ==> Rearmable(opts))
  }

  lemma IncludesItself(front: string, text: string)
    ensures Includes(front + text, text)
  {
    assert FoundAt(front + text, text, |front|);
  }

  /** A signal in part of a text is in the text. */
  lemma PartSignals(opts: ExecOpts, front: string, text: string)
    requires Signalled(opts, text)
    ensures Signalled(opts, front + text)
  {
    var k :| 0 <= k < |opts.signals| && Includes(text, opts.signals[k]);
    var signal := opts.signals[k];
    var i :| 0 <= i <= |text| - |signal| && FoundAt(text, signal, i);
    var whole, j := front + text, |front| + i;
    assert whole[j..j + |signal|] == text[i..i + |signal|];
    assert FoundAt(whole, signal, j);
    assert Includes(whole, signal);
  }

  /** Output that holds a note and completes no signal shows that the note leaves room. */
  lemma RoomAfterNote(opts: ExecOpts, output: string, note: string, chunk: string)
    requires Includes(output, note) && chunk != "" && !Signalled(opts, output + chunk)
    ensures LeavesRoom(opts, note)
  {
    var i :| 0 <= i <= |output| - |note| && FoundAt(output, note, i);
    var rest := output[i + |note|..] + chunk;
    assert output + chunk == output[..i] + (note + rest);
    if Signalled(opts, note + rest) {
      PartSignals(opts, output[..i], note + rest);
    }
    assert rest != "";
  }

  lemma LateDataIsConfigured(opts: ExecOpts, s: State, chunk: string)
    requires Configured(opts, s) && GraceGrounded(opts, s) && chunk != "" && (s.Settled() ==> Killed(s))
    ensures Configured(opts, Heard(opts, s, chunk))
  {
    var next := Heard(opts, s, chunk);
    if s.timedOut {
      IncludesKeeps(s.output, chunk, opts.hardNote);
    }
    if s.idleKilled {
      IncludesKeeps(s.output, chunk, opts.idleNote);
    }
    if s.Settled() && next.Armed() && !s.Armed() {
      if s.inGraceMode || Signalled(opts, next.output) {
        assert opts.signals != [];
      } else if s.idleKilled {
        RoomAfterNote(opts, s.output, opts.idleNote, chunk);
      } else {
        RoomAfterNote(opts, s.output, opts.hardNote, chunk);
      }
    }
  }

  lemma StepIsConfigured(opts: ExecOpts, s: State, e: Event)
    requires Configured(opts, s) && GraceGrounded(opts, s) && MayHappen(s, e)
    requires e.Data? ==> e.chunk != "" && (s.Settled() ==> Killed(s))
    ensures Configured(opts, Step(opts, s, e))
  {
    hide Signalled, Includes, Rearmable;
    match e
    case Data(chunk) => LateDataIsConfigured(opts, s, chunk);
    case HardFires =>
      IncludesItself(s.output, opts.hardNote);
      if s.idleKilled {
        IncludesKeeps(s.output, opts.hardNote, opts.idleNote);
      }
    case IdleFires =>
      IncludesItself(s.output, opts.idleNote);
      if s.timedOut {
        IncludesKeeps(s.output, opts.idleNote, opts.hardNote);
      }
    case _ =>
  }

  lemma {:induction false} RunIsConfigured(opts: ExecOpts, run: seq<Event>)
    requires Receivable(opts, run)
    ensures Configured(opts, After(opts, run))
  {
    hide Step, Signalled, Includes, Rearmable, Live, Killed;
    if run != [] {
      var before, e := Init(run), Last(run);
      RunIsConfigured(opts, before);
      ReceivableIsPossible(opts, before);
      GraceRestsOnSignal(opts, before);
      if e.Data? && After(opts, before).Settled() {
        LiveAndSettled(opts, before);
        KilledIff(opts, before);
      }
      StepIsConfigured(opts, After(opts, before), e);
    }
  }

  /** A run that settled and has a timer armed. */
  predicate OutlivedBy(opts: ExecOpts, run: seq<Event>) {
    Receivable(opts, run) && After(opts, run).Settled() && After(opts, run).Armed()
  }

  lemma ReceivableAppend(opts: ExecOpts, run: seq<Event>, e: Event)
    requires Receivable(opts, run) && MayHappen(After(opts, run), e)
    requires e.Data? ==> e.chunk != "" && Live(run)
    requires e.Fails? ==> SomeFired(run)
    ensures Receivable(opts, run + [e]) && After(opts, run + [e]) == Step(opts, After(opts, run), e)
    ensures Live(run) && !e.Closes? ==> Live(run + [e])
    ensures SomeFired(run) || Fires(e) ==> SomeFired(run + [e])
  {
    hide Step, SomeFired;
    InitOfAppend(run, e);
    FiredAppend(run, e);
    var next := run + [e];
    assert next != [] && Init(next) == run && Last(next) == e;
  }

  /** A live child that could not be killed, then a chunk. */
  lemma KillFails(opts: ExecOpts, run: seq<Event>, timer: Event, chunk: string) returns (late: seq<Event>)
    requires Receivable(opts, run) && Live(run) && Fires(timer) && MayHappen(After(opts, run), timer) && chunk != ""
    ensures late == run + [timer, Fails("kill EPERM"), Data(chunk)] && Receivable(opts, late)
    ensures var s := Step(opts, After(opts, run), timer);
            After(opts, late) == Step(opts, Step(opts, s, Fails("kill EPERM")), Data(chunk))
              && After(opts, late).Settled()
  {
    hide Step, Receivable, After, Live, SomeFired;
    var fired := run + [timer];
    ReceivableAppend(opts, run, timer);
    var failed := fired + [Fails("kill EPERM")];
    ReceivableAppend(opts, fired, Fails("kill EPERM"));
    late := failed + [Data(chunk)];
    ReceivableAppend(opts, failed, Data(chunk));
    assert late == run + [timer, Fails("kill EPERM"), Data(chunk)];
    SettledByThen(opts, failed, chunk);
  }

  lemma SettledByThen(opts: ExecOpts, run: seq<Event>, chunk: string)
    requires run != [] && Ends(Last(run))
    ensures After(opts, run + [Data(chunk)]).Settled()
  {
    var e, late := Last(run), run + [Data(chunk)];
    assert late[|run| - 1] == e;
    assert e in late && !Unended(late);
    SettledIff(opts, run + [Data(chunk)]);
  }

  /** The signal, the grace timer, a kill that fails, and more output. */
  lemma GraceOutlives(opts: ExecOpts) returns (run: seq<Event>)
    requires opts.grace && opts.signals != []
    ensures OutlivedBy(opts, run)
  {
    hide Signalled, Possible, Live, Receivable, Step, Heard, SomeFired, Killed;
    var signal := opts.signals[0];
    var chunk := if signal == "" then "x" else signal;
    var run0 := [Data(chunk)];
    assert Signalled(opts, "" + chunk) by { SignalledByFirst(opts, chunk); }
    assert Receivable(opts, []) && Live([]) by { NothingIsReceivable(opts); }
    ReceivableAppend(opts, [], Data(chunk));
    assert [] + [Data(chunk)] == run0;
    SignalStartsGrace(opts, chunk);
    run := KillFails(opts, run0, GraceFires, "x");
  }

  lemma SignalStartsGrace(opts: ExecOpts, chunk: string)
    requires opts.grace && Signalled(opts, "" + chunk)
    ensures var s := Step(opts, Spawned(opts), Data(chunk));
            MayHappen(s, GraceFires)
            && Step(opts, Step(opts, Step(opts, s, GraceFires), Fails("kill EPERM")), Data("x")).Armed()
  {
    hide Signalled;
  }

  lemma SignalledByFirst(opts: ExecOpts, chunk: string)
    requires opts.signals != [] && (chunk == opts.signals[0] || opts.signals[0] == "")
    ensures Signalled(opts, "" + chunk)
  {
    var signal := opts.signals[0];
    assert FoundAt("" + chunk, signal, 0);
    assert Includes("" + chunk, signal);
  }

  lemma NothingIsReceivable(opts: ExecOpts)
    ensures Receivable(opts, []) && Live([])
  {
  }

  /** A timer fires before any signal, the kill fails, and output arrives that completes none. */
  lemma IdleOutlives(opts: ExecOpts, timer: Event, note: string) returns (run: seq<Event>)
    requires opts.idle && LeavesRoom(opts, note)
    requires (timer == IdleFires && note == opts.idleNote) || (timer == HardFires && opts.hard && note == opts.hardNote)
    ensures OutlivedBy(opts, run)
  {
    var more: string :| more != "" && !Signalled(opts, note + more);
    hide Signalled;
    run := KillFails(opts, [], timer, more);
    assert "" + note == note;
  }

  /**
   * Some run a child can make happen ends with a timer armed although it has settled exactly when
   * the options are rearmable; without completion signals, exactly when there is an idle timeout.
   */
  lemma TimerOutlivesIff(opts: ExecOpts)
    ensures (exists run :: OutlivedBy(opts, run)) <==> Rearmable(opts)
    ensures opts.signals == [] ==> (Rearmable(opts) <==> opts.idle)
  {
    forall run | OutlivedBy(opts, run)
      ensures Rearmable(opts)
    {
      RunIsConfigured(opts, run);
    }
    if opts.grace && opts.signals != [] {
      var run := GraceOutlives(opts);
    } else if Rearmable(opts) {
      var run;
      if LeavesRoom(opts, opts.idleNote) {
        run := IdleOutlives(opts, IdleFires, opts.idleNote);
      } else {
        run := IdleOutlives(opts, HardFires, opts.hardNote);
      }
      assert OutlivedBy(opts, run);
    }
    if opts.signals == [] {
      assert !Signalled(opts, opts.idleNote + "x");
    }
  }

  /** One such run: the idle timer fires, the kill is refused, and the child goes on printing. */
  lemma LateOutputExample(opts: ExecOpts)
    requires opts.idle && opts.signals == []
    ensures var run := [IdleFires, Fails("kill EPERM"), Data("late")];
            Receivable(opts, run) && After(opts, run).Settled() && After(opts, run).idleArmed
  {
    var run := KillFails(opts, [], IdleFires, "late");
    assert [] + [IdleFires, Fails("kill EPERM"), Data("late")] == [IdleFires, Fails("kill EPERM"), Data("late")];
  }
}
