/** Who closes the host stream: the race of the normal ending of a round trip with the shutdown and the
    deadline watchdogs, `closeWith` of internal/basispoints/stream_session.go, and the relay summary that
    is written at the end (`bind`, `finishAfter` and `finish` of relay_summary.go). Every step below is one
    atomic action of one of the three goroutines; they may interleave in any order. */
module Closing {
  import opened Responses
  import opened Session

  // ---------- the summary record ----------

  datatype Record = Record(exit: string, errorKind: string)

  function ExitForError(err: Option<Failure>): string {
    if err.None? then "completed"
    else if SaysClientGone(err.value) then "cancelled"
    else if ErrorKind(err.value) == "plugin_stopped" then "stopped"
    else if ErrorKind(err.value) == "upstream_timeout" then "timeout"
    else if IsRequestScoped(err.value) then "failed"
    else "upstream_error"
  }

  /** A host call that does not return by itself: an emit into a full queue, which only a close of the
      stream ends, or the log call of the hook, which nothing ends. */
  datatype Stall = NoStall | InEmit | InLog

  /** What a race is given: the two values `finish` adds to its arguments, the exit set beforehand and
      whether the terminal status is `incomplete`; and where the ending gets stuck, if it does. */
  datatype Setting = Setting(preset: string, incomplete: bool, stall: Stall)

  function Finished(c: Setting, exit: string, err: Option<Failure>): Record {
    var chosen := if exit != "" then exit else if c.preset != "" then c.preset else ExitForError(err);
    Record(if chosen == "completed" && c.incomplete then "incomplete" else chosen,
           if err.Some? then ErrorKind(err.value) else "")
  }

  function FinishedAfter(c: Setting, forced: Option<Failure>, exit: string, err: Option<Failure>): Record {
    if forced.Some? then Finished(c, ExitForError(forced), forced) else Finished(c, exit, err)
  }

  // ---------- the three parties ----------

  datatype Watchdog = ShutdownDog | DeadlineDog

  datatype Party = Ending | Dog(dog: Watchdog)

  /** `closeOnce`: while one party is inside, the others wait. */
  datatype Once = Fresh | Busy(owner: Party) | Spent(owner: Party)

  /** What an ending has decided: the outcome and error for the hook, the error to close with, and the
      arguments of the fallback summary. */
  datatype End = End(outcome: string, endErr: Option<Failure>, closeErr: Option<Failure>, exit: string, err: Option<Failure>)
  {
    /** The error the hook reports. */
    function HookErr(): Option<Failure> {
      if outcome == "completed" then None else if endErr.Some? then endErr else closeErr
    }
  }

  datatype Place =
    | Working
    | Deciding(end: End)
    | HookStarts(end: End)
    | HookWrites(end: End, seen: Option<Failure>)
    | AtOnce(end: End)
    | Inside(end: End)
    | Leaving(end: End)
    | FallbackReads(end: End)
    | FallbackWrites(end: End, seen: Option<Failure>)
    | Over(end: End)

  datatype Watch =
    | Asleep
    | Fired(payload: Option<Failure>)
    | Entered(payload: Option<Failure>)
    | Named(payload: Option<Failure>)
    | Visible(payload: Option<Failure>)
    | Away

  /** The record that was written, and the forced reason its writer had found. */
  datatype Written = Written(record: Record, seen: Option<Failure>)

  datatype Race = Race(
    setting: Setting, timeout: Failure,
    once: Once, closes: seq<Option<Failure>>, forced: bool, forceReason: Option<Failure>,
    place: Place, hooks: nat, written: seq<Written>, ended: bool,
    shutdown: Watch, deadline: Watch, stopped: bool)
  {
    function At(dog: Watchdog): Watch {
      if dog == ShutdownDog then shutdown else deadline
    }

    function With(dog: Watchdog, w: Watch): Race {
      if dog == ShutdownDog then this.(shutdown := w) else this.(deadline := w)
    }
  }

  function Start(setting: Setting, timeout: Failure): Race {
    Race(setting, timeout, Fresh, [], false, None, Working, 0, [], false, Asleep, Asleep, false)
  }

  // ---------- the steps ----------

  datatype Step = EndingStep(end: End) | DogStep(dog: Watchdog, fires: bool) | StopLife

  /** The ending waits in a host call: in an emit until the stream is closed, in a log call for ever. */
  predicate Stuck(s: Race) {
    || (s.setting.stall.InEmit? && s.place.Working? && s.closes == [])
    || (s.setting.stall.InLog? && s.place.HookWrites?)
  }

  predicate Enabled(s: Race, step: Step) {
    match step
    case EndingStep(_) => !s.place.Over? && !(s.place.AtOnce? && s.once.Busy?) && !Stuck(s)
    case DogStep(dog, fires) =>
      var w := s.At(dog);
      if w.Asleep? then (if fires then dog == DeadlineDog || s.stopped else s.ended)
      else !w.Away? && !(w.Fired? && s.once.Busy?)
    case StopLife => !s.stopped
  }

  function Write(s: Race, seen: Option<Failure>, exit: string, err: Option<Failure>): seq<Written> {
    if s.written != [] then s.written else [Written(FinishedAfter(s.setting, seen, exit, err), seen)]
  }

  /** Where the ending goes next. */
  function PlaceNext(s: Race, end: End): Place {
    match s.place
    case Working => Deciding(end)
    case Deciding(e) => if s.forced then AtOnce(e) else HookStarts(e)
    case HookStarts(e) => HookWrites(e, s.forceReason)
    case HookWrites(e, _) => AtOnce(e)
    case AtOnce(e) => if s.once.Fresh? then Inside(e) else Leaving(e)
    case Inside(e) => Leaving(e)
    case Leaving(e) => FallbackReads(e)
    case FallbackReads(e) => FallbackWrites(e, s.forceReason)
    case FallbackWrites(e, _) => Over(e)
    case Over(_) => s.place
  }

  /** What it does on the way. */
  function EndingMarked(s: Race): Race {
    match s.place
    case HookStarts(_) => s.(hooks := s.hooks + 1)
    case HookWrites(e, seen) => s.(written := Write(s, seen, e.outcome, e.HookErr()))
    case AtOnce(_) => if s.once.Fresh? then s.(once := Busy(Ending)) else s
    case Inside(e) => s.(once := Spent(Ending), closes := s.closes + [e.closeErr])
    case Leaving(_) => s.(ended := true)
    case FallbackWrites(e, seen) => s.(written := Write(s, seen, e.exit, e.err))
    case _ => s
  }

  function EndingNext(s: Race, end: End): Race {
    EndingMarked(s).(place := PlaceNext(s, end))
  }

  /** A silent forced close can only come from the plugin being stopped. */
  function ReasonOf(payload: Option<Failure>): Failure {
    payload.GetOr(STOPPED)
  }

  /** Where a watchdog goes next. */
  function WatchNext(s: Race, dog: Watchdog, fires: bool): Watch {
    match s.At(dog)
    case Asleep => if !fires then Away else Fired(if dog == DeadlineDog && !s.stopped then Some(s.timeout) else None)
    case Fired(payload) => if s.once.Fresh? then Entered(payload) else Away
    case Entered(payload) => Named(payload)
    case Named(payload) => Visible(payload)
    case Visible(_) => Away
    case Away => Away
  }

  /** What it does to the session on the way. */
  function Marked(s: Race, dog: Watchdog): Race {
    match s.At(dog)
    case Fired(_) => if s.once.Fresh? then s.(once := Busy(Dog(dog))) else s
    case Entered(payload) => s.(forceReason := Some(ReasonOf(payload)))
    case Named(_) => s.(forced := true)
    case Visible(payload) => s.(once := Spent(Dog(dog)), closes := s.closes + [payload])
    case _ => s
  }

  function DogNext(s: Race, dog: Watchdog, fires: bool): Race {
    Marked(s, dog).With(dog, WatchNext(s, dog, fires))
  }

  function Next(s: Race, step: Step): Race {
    match step
    case EndingStep(end) => EndingNext(s, end)
    case DogStep(dog, fires) => DogNext(s, dog, fires)
    case StopLife => s.(stopped := true)
  }

  // ---------- the invariant ----------

  predicate InsideOnce(w: Watch) {
    w.Entered? || w.Named? || w.Visible?
  }

  predicate PastHook(p: Place) {
    p.AtOnce? || p.Inside? || p.Leaving? || p.FallbackReads? || p.FallbackWrites? || p.Over?
  }

  predicate PastClose(p: Place) {
    p.Leaving? || p.FallbackReads? || p.FallbackWrites? || p.Over?
  }

  /** The host stream has been closed exactly when `closeOnce` is spent. */
  ghost predicate CloseOk(s: Race) {
    && |s.closes| == (if s.once.Spent? then 1 else 0)
    && (s.place.Inside? <==> s.once == Busy(Ending))
    && (InsideOnce(s.shutdown) <==> s.once == Busy(Dog(ShutdownDog)))
    && (InsideOnce(s.deadline) <==> s.once == Busy(Dog(DeadlineDog)))
    && (PastClose(s.place) ==> s.once.Spent?)
    && (s.once == Spent(Ending) ==> PastClose(s.place) && s.closes == [s.place.end.closeErr])
    && (s.ended || s.deadline.Away? ==> s.once.Spent?)
    && (s.ended <==> s.place.FallbackReads? || s.place.FallbackWrites? || s.place.Over?)
  }

  /** The force reason belongs to the watchdog that owns the close, and is set before the flag is. */
  ghost predicate ForceOk(s: Race)
    requires CloseOk(s)
  {
    match s.once
    case Fresh => !s.forced && s.forceReason.None?
    case Busy(Ending) => !s.forced && s.forceReason.None?
    case Spent(Ending) => !s.forced && s.forceReason.None?
    case Busy(Dog(d)) =>
      var w := s.At(d);
      && s.forced == w.Visible?
      && (InsideOnce(w) ==> s.forceReason == if w.Entered? then None else Some(ReasonOf(w.payload)))
    case Spent(Dog(_)) => s.forced && s.forceReason == Some(ReasonOf(s.closes[0]))
  }

  /** One record at most; the hook ran at most once, and wrote it if it did. */
  ghost predicate SummaryOk(s: Race) {
    && |s.written| <= 1
    && s.hooks <= 1
    && (s.hooks == 1 ==> s.place.HookWrites? || PastHook(s.place))
    && (s.place.HookWrites? ==> s.hooks == 1 && s.written == [] && (s.place.seen.Some? ==> s.place.seen == s.forceReason))
    && (s.written != [] <==> (PastHook(s.place) && s.hooks == 1) || s.place.Over?)
    && (PastHook(s.place) && s.hooks == 0 ==> s.forced)
    && (s.place.FallbackWrites? && s.hooks == 0 ==> s.place.seen == s.forceReason)
    && (s.written != [] ==> RecordOk(s))
  }

  /** What the record says, by whom it was written and what that writer had found. */
  ghost predicate RecordOk(s: Race)
    requires s.written != [] && PastHook(s.place)
  {
    var w, e := s.written[0], s.place.end;
    && (w.seen.Some? ==> w.seen == s.forceReason)
    && (s.hooks == 0 ==> w.seen == s.forceReason && w.record == FinishedAfter(s.setting, w.seen, e.exit, e.err))
    && (s.hooks == 1 ==> w.record == FinishedAfter(s.setting, w.seen, e.outcome, e.HookErr()))
  }

  function PayloadOf(w: Watch): Option<Option<Failure>> {
    if w.Asleep? || w.Away? then None else Some(w.payload)
  }

  /** A watchdog closes silently only if the plugin has been stopped, and otherwise with the timeout. */
  predicate Justified(s: Race, dog: Watchdog, payload: Option<Failure>) {
    if payload.None? then s.stopped else dog == DeadlineDog && payload.value == s.timeout
  }

  ghost predicate PayloadOk(s: Race)
    requires CloseOk(s)
  {
    && (PayloadOf(s.shutdown).Some? ==> Justified(s, ShutdownDog, PayloadOf(s.shutdown).value))
    && (PayloadOf(s.deadline).Some? ==> Justified(s, DeadlineDog, PayloadOf(s.deadline).value))
    && (s.once.Spent? && s.once.owner.Dog? ==> Justified(s, s.once.owner.dog, s.closes[0]))
  }

  ghost predicate RaceOk(s: Race) {
    CloseOk(s) && ForceOk(s) && SummaryOk(s) && PayloadOk(s)
  }

  lemma EndingKeepsClose(s: Race, end: End)
    requires CloseOk(s) && Enabled(s, EndingStep(end))
    ensures CloseOk(EndingNext(s, end))
  {
    hide FinishedAfter, Write;
  }

  lemma EndingKeepsForce(s: Race, end: End)
    requires CloseOk(s) && ForceOk(s) && PayloadOk(s) && Enabled(s, EndingStep(end)) && CloseOk(EndingNext(s, end))
    ensures PayloadOk(EndingNext(s, end)) && ForceOk(EndingNext(s, end))
  {
    hide FinishedAfter, Write, Stuck;
    EndingLeaves(s, end);
    if s.place.AtOnce? || s.place.Inside? {
      assert s.once.Busy? ==> s.once == Busy(Ending);
    } else {
      hide EndingNext;
    }
  }

  /** The ending never touches what belongs to the watchdogs. */
  lemma EndingLeaves(s: Race, end: End)
    ensures var t := EndingNext(s, end);
            && t.shutdown == s.shutdown && t.deadline == s.deadline && t.stopped == s.stopped && t.timeout == s.timeout
            && t.forced == s.forced && t.forceReason == s.forceReason
            && (!s.place.AtOnce? && !s.place.Inside? ==> t.once == s.once && t.closes == s.closes)
  {
    hide Write;
  }

  lemma EndingKeepsSummary(s: Race, end: End)
    requires RaceOk(s) && Enabled(s, EndingStep(end))
    ensures SummaryOk(EndingNext(s, end))
  {
    hide FinishedAfter, PayloadOk, Stuck, CloseOk;
    EndingLeaves(s, end);
  }

  lemma DogKeepsClose(s: Race, dog: Watchdog, fires: bool)
    requires CloseOk(s) && PayloadOk(s) && Enabled(s, DogStep(dog, fires))
    ensures CloseOk(DogNext(s, dog, fires)) && PayloadOk(DogNext(s, dog, fires))
  {
    hide FinishedAfter;
  }

  lemma DogKeepsForce(s: Race, dog: Watchdog, fires: bool)
    requires RaceOk(s) && Enabled(s, DogStep(dog, fires)) && CloseOk(DogNext(s, dog, fires))
    ensures ForceOk(DogNext(s, dog, fires))
  {
    hide FinishedAfter, SummaryOk;
  }

  /** A watchdog leaves the ending alone; a recorded reason and a visible flag stay, and nothing changes once
      the stream is closed. */
  lemma DogLeaves(s: Race, dog: Watchdog, fires: bool)
    requires CloseOk(s) && ForceOk(s)
    ensures var t := DogNext(s, dog, fires);
            && t.place == s.place && t.hooks == s.hooks && t.written == s.written && t.setting == s.setting
            && (s.forced ==> t.forced) && (s.forceReason.Some? ==> t.forceReason == s.forceReason)
            && (s.once.Spent? ==> t.forceReason == s.forceReason)
  {
    hide WatchNext;
    if s.once.Busy? && s.once.owner.Dog? {
      assert InsideOnce(s.At(s.once.owner.dog));
    }
  }

  lemma DogKeepsSummary(s: Race, dog: Watchdog, fires: bool)
    requires RaceOk(s) && Enabled(s, DogStep(dog, fires))
    ensures SummaryOk(DogNext(s, dog, fires))
  {
    hide FinishedAfter, DogNext, ForceOk, PayloadOk, Enabled;
    DogLeaves(s, dog, fires);
  }

  lemma StopKeepsOk(s: Race)
    requires RaceOk(s)
    ensures RaceOk(s.(stopped := true))
  {
    hide FinishedAfter;
  }

  lemma StepKeepsOk(s: Race, step: Step)
    requires RaceOk(s) && Enabled(s, step)
    ensures RaceOk(Next(s, step))
  {
    hide EndingNext, DogNext, CloseOk, ForceOk, SummaryOk, PayloadOk;
    match step {
      case EndingStep(end) =>
        EndingKeepsClose(s, end);
        EndingKeepsForce(s, end);
        EndingKeepsSummary(s, end);
      case DogStep(dog, fires) =>
        DogKeepsClose(s, dog, fires);
        DogKeepsForce(s, dog, fires);
        DogKeepsSummary(s, dog, fires);
      case StopLife => StopKeepsOk(s);
    }
  }

  lemma MarkedKeeps(s: Race, dog: Watchdog)
    ensures var t := Marked(s, dog);
            t == s.(once := t.once, closes := t.closes, forced := t.forced, forceReason := t.forceReason)
  {
  }

  lemma StepKeepsSetting(s: Race, step: Step)
    ensures Next(s, step).setting == s.setting && Next(s, step).timeout == s.timeout
  {
    hide Write, WatchNext, Marked;
    if step.DogStep? {
      hide EndingNext;
      MarkedKeeps(s, step.dog);
    }
  }

  // ---------- every run ----------

  /** The state after the steps; None if one of them was not enabled. */
  function Run(s: Race, steps: seq<Step>): Option<Race> {
    if steps == [] then Some(s)
    else
      match Run(s, steps[..|steps| - 1])
      case None => None
      case Some(t) => if Enabled(t, steps[|steps| - 1]) then Some(Next(t, steps[|steps| - 1])) else None
  }

  lemma {:induction false} EveryRunIsOk(setting: Setting, timeout: Failure, steps: seq<Step>)
    requires Run(Start(setting, timeout), steps).Some?
    ensures RaceOk(Run(Start(setting, timeout), steps).value)
    ensures var s := Run(Start(setting, timeout), steps).value; s.setting == setting && s.timeout == timeout
  {
    hide RaceOk, Enabled, Next;
    if steps == [] {
      FirstIsOk(setting, timeout);
    } else {
      EveryRunIsOk(setting, timeout, steps[..|steps| - 1]);
      StepKeepsOk(Run(Start(setting, timeout), steps[..|steps| - 1]).value, steps[|steps| - 1]);
      StepKeepsSetting(Run(Start(setting, timeout), steps[..|steps| - 1]).value, steps[|steps| - 1]);
    }
  }

  lemma FirstIsOk(setting: Setting, timeout: Failure)
    ensures RaceOk(Start(setting, timeout))
  {
  }

  /** At any moment of any run the host stream has been closed at most once. A forced close is announced
      only after its reason is recorded, and closes the stream with exactly that reason's error: silently
      only if the plugin was stopped, and then as `plugin_stopped`. */
  lemma ClosedAtMostOnce(setting: Setting, timeout: Failure, steps: seq<Step>)
    requires Run(Start(setting, timeout), steps).Some?
    ensures var s := Run(Start(setting, timeout), steps).value;
            && |s.closes| <= 1 && |s.written| <= 1 && s.hooks <= 1
            && (s.ended ==> |s.closes| == 1)
            && (s.forced ==> s.forceReason.Some?)
            && (s.forceReason.Some? ==> s.forceReason.value == timeout || (s.forceReason.value == STOPPED && s.stopped))
            && (s.forced && s.closes != [] ==>
                  && s.forceReason == Some(ReasonOf(s.closes[0]))
                  && (s.closes[0].None? ==> s.stopped))
  {
    EveryRunIsOk(setting, timeout, steps);
    hide Run, FinishedAfter;
    var s := Run(Start(setting, timeout), steps).value;
    if s.once.Busy? && s.once.owner.Dog? {
      assert InsideOnce(s.At(s.once.owner.dog));
    }
  }

  /** When the round trip is over, the stream has been closed once and the summary written once. If the
      normal ending won, nothing was forced, its own error closed the stream and the hook wrote the
      record. If a watchdog won, the record is that of its reason, unless the hook had already begun. */
  lemma EndedProperly(setting: Setting, timeout: Failure, steps: seq<Step>)
    requires Run(Start(setting, timeout), steps).Some? && Run(Start(setting, timeout), steps).value.place.Over?
    ensures var s := Run(Start(setting, timeout), steps).value;
            var e := s.place.end;
            && s.once.Spent? && |s.closes| == 1 && |s.written| == 1
            && s.forced == s.once.owner.Dog?
            && (s.once.owner == Ending ==>
                  && s.closes == [e.closeErr] && s.hooks == 1
                  && s.written[0].record == Finished(setting, e.outcome, e.HookErr()))
            && (s.forced ==>
                  && s.forceReason == Some(ReasonOf(s.closes[0]))
                  && (s.hooks == 0 || s.written[0].seen.Some? ==>
                        s.written[0].record == Finished(setting, ExitForError(s.forceReason), s.forceReason))
                  && (s.written[0].seen.None? ==> s.written[0].record == Finished(setting, e.outcome, e.HookErr())))
  {
    EveryRunIsOk(setting, timeout, steps);
    hide Run, Finished, ExitForError;
  }

  // ---------- when the hook runs ----------

  /** The two looks the ending takes at a forced close: the check before the hook, and the hook's own. */
  datatype Look = Check | HookLook

  predicate IsAt(s: Race, look: Look) {
    if look.Check? then s.place.Deciding? else s.place.HookStarts?
  }

  /** The state in which the ending took the look, if it has. */
  function LookedAt(s: Race, steps: seq<Step>, look: Look): Option<Race> {
    if steps == [] then None
    else
      var before := LookedAt(s, steps[..|steps| - 1], look);
      if before.Some? then before
      else
        match Run(s, steps[..|steps| - 1])
        case None => None
        case Some(t) => if IsAt(t, look) && steps[|steps| - 1].EndingStep? then Some(t) else None
  }

  /** How far the ending has got tells what its looks have found. */
  ghost predicate LooksOk(s: Race, check: Option<Race>, look: Option<Race>) {
    && (check.None? <==> s.place.Working? || s.place.Deciding?)
    && (s.hooks == 1 || s.place.HookStarts? <==> check.Some? && !check.value.forced)
    && (look.Some? <==> s.hooks == 1)
    && (look.Some? && look.value.forced ==> look.value.forceReason.Some?)
    && (s.place.HookWrites? && look.Some? ==> s.place.seen == look.value.forceReason)
    && (s.hooks == 1 && look.Some? && s.written != [] ==> s.written[0].seen == look.value.forceReason)
  }

  lemma ForcedHasReason(s: Race)
    requires RaceOk(s) && s.forced
    ensures s.forceReason.Some?
  {
    if s.once.Busy? && s.once.owner.Dog? {
      assert InsideOnce(s.At(s.once.owner.dog));
    }
  }

  lemma LooksStep(s: Race, step: Step, check: Option<Race>, look: Option<Race>)
    requires RaceOk(s) && Enabled(s, step) && LooksOk(s, check, look)
    ensures LooksOk(Next(s, step),
                    if check.None? && IsAt(s, Check) && step.EndingStep? then Some(s) else check,
                    if look.None? && IsAt(s, HookLook) && step.EndingStep? then Some(s) else look)
  {
    hide FinishedAfter, CloseOk, ForceOk, PayloadOk, WatchNext, Marked;
    if s.forced {
      ForcedHasReason(s);
    }
    if step.DogStep? {
      MarkedKeeps(s, step.dog);
    }
  }

  lemma {:induction false} RunLooks(setting: Setting, timeout: Failure, steps: seq<Step>)
    requires Run(Start(setting, timeout), steps).Some?
    ensures LooksOk(Run(Start(setting, timeout), steps).value,
                    LookedAt(Start(setting, timeout), steps, Check), LookedAt(Start(setting, timeout), steps, HookLook))
  {
    hide RaceOk, Enabled, Next;
    if steps != [] {
      hide LooksOk, IsAt;
      var shorter, start := steps[..|steps| - 1], Start(setting, timeout);
      RunLooks(setting, timeout, shorter);
      EveryRunIsOk(setting, timeout, shorter);
      LooksStep(Run(start, shorter).value, steps[|steps| - 1], LookedAt(start, shorter, Check), LookedAt(start, shorter, HookLook));
    }
  }

  /** Over every run: the hook starts if and only if the ending took its check while no forced close was
      visible. A hook writes what the forced close had recorded when it looked; so one that looks after the
      close has become visible writes the forced reason. */
  lemma HookRunsExactly(setting: Setting, timeout: Failure, steps: seq<Step>)
    requires Run(Start(setting, timeout), steps).Some?
    ensures var s := Run(Start(setting, timeout), steps).value;
            var check := LookedAt(Start(setting, timeout), steps, Check);
            var look := LookedAt(Start(setting, timeout), steps, HookLook);
            && (s.hooks == 1 || s.place.HookStarts? <==> check.Some? && !check.value.forced)
            && (s.place.Over? ==> (s.hooks == 1 <==> check.Some? && !check.value.forced))
            && (s.hooks == 1 <==> look.Some?)
            && (s.hooks == 1 && s.written != [] ==>
                  PastHook(s.place) && s.written[0].record == FinishedAfter(setting, look.value.forceReason, s.place.end.outcome, s.place.end.HookErr()))
            && (s.hooks == 1 && s.written != [] && look.value.forced ==>
                  s.forceReason.Some? && s.written[0].record == Finished(setting, ExitForError(s.forceReason), s.forceReason))
  {
    hide Run, LookedAt, Finished, ExitForError, CloseOk, ForceOk, PayloadOk;
    RunLooks(setting, timeout, steps);
    EveryRunIsOk(setting, timeout, steps);
  }

  /** An ending that has not taken its check when a forced close becomes visible never starts the hook. */
  lemma {:induction false} ForcedKeepsHookOut(s: Race, steps: seq<Step>)
    requires RaceOk(s) && s.forced && s.hooks == 0 && (s.place.Working? || s.place.Deciding?) && Run(s, steps).Some?
    ensures var t := Run(s, steps).value; RaceOk(t) && t.forced && t.hooks == 0 && !t.place.HookStarts? && !t.place.HookWrites?
  {
    hide RaceOk, Enabled;
    if steps != [] {
      var shorter, step := steps[..|steps| - 1], steps[|steps| - 1];
      ForcedKeepsHookOut(s, shorter);
      StepKeepsOk(Run(s, shorter).value, step);
      if step.DogStep? {
        hide WatchNext, Marked;
        ForcedStays(Run(s, shorter).value, step.dog, step.fires);
      }
    }
  }

  lemma ForcedStays(s: Race, dog: Watchdog, fires: bool)
    ensures s.forced ==> DogNext(s, dog, fires).forced
    ensures DogNext(s, dog, fires).hooks == s.hooks && DogNext(s, dog, fires).place == s.place
  {
    hide WatchNext;
  }

  // ---------- what the fine interleavings allow ----------

  /** An ending that has found no forced close may still start its hook after one has become visible: the
      hook reads the reason then, so the record is right. */
  lemma HookMayStartForced(setting: Setting, timeout: Failure, end: End)
    requires !setting.stall.InEmit?
    ensures var steps := [EndingStep(end), EndingStep(end)] + Forcing(4);
            && Run(Start(setting, timeout), steps).Some?
            && var s := Run(Start(setting, timeout), steps).value;
               s.forced && s.hooks == 0 && s.place == HookStarts(end)
  {
    var first := Start(setting, timeout).(place := HookStarts(end));
    RunTwo(Start(setting, timeout), EndingStep(end), EndingStep(end));
    ForcingRuns(first, 4);
    RunAppend(Start(setting, timeout), [EndingStep(end), EndingStep(end)], Forcing(4));
  }

  lemma HookFinishes(s: Race, end: End)
    requires s.place == HookWrites(end, None) && s.written == [] && s.setting.stall.NoStall?
    ensures Enabled(s, EndingStep(end))
    ensures Next(s, EndingStep(end)) == s.(place := AtOnce(end), written := [Written(Finished(s.setting, end.outcome, end.HookErr()), None)])
  {
    hide Finished;
  }

  lemma HookLooksFirst(setting: Setting, timeout: Failure, end: End)
    requires setting.stall.NoStall?
    ensures Run(Start(setting, timeout), [EndingStep(end), EndingStep(end), EndingStep(end)])
            == Some(Start(setting, timeout).(place := HookWrites(end, None), hooks := 1))
  {
    var e := EndingStep(end);
    RunTwo(Start(setting, timeout), e, e);
    assert [e, e, e][..2] == [e, e];
    hide FinishedAfter;
  }

  /** A hook that has read no reason yet writes the outcome of its ending, although a watchdog then closes
      the stream first: the one case in which the record is not that of the forced close. */
  lemma RecordMayMissForce(setting: Setting, timeout: Failure, end: End)
    requires setting.stall.NoStall?
    ensures var steps := [EndingStep(end), EndingStep(end), EndingStep(end)] + Forcing(5) + [EndingStep(end)];
            && Run(Start(setting, timeout), steps).Some?
            && var s := Run(Start(setting, timeout), steps).value;
               && s.forced && s.closes == [Some(timeout)]
               && s.written == [Written(Finished(setting, end.outcome, end.HookErr()), None)]
  {
    hide Run, Enabled, Next, Finished;
    var e := EndingStep(end);
    var start := Start(setting, timeout);
    var first := start.(place := HookWrites(end, None), hooks := 1);
    HookLooksFirst(setting, timeout, end);
    ForcingRuns(first, 5);
    RunAppend(start, [e, e, e], Forcing(5));
    var forced := AfterForcing(first, 5);
    HookFinishes(forced, end);
    RunOneMore(start, [e, e, e] + Forcing(5), forced, e);
    assert [] + [Some(timeout)] == [Some(timeout)];
  }

  lemma RunOneMore(s: Race, steps: seq<Step>, t: Race, step: Step)
    requires Run(s, steps) == Some(t) && Enabled(t, step)
    ensures Run(s, steps + [step]) == Some(Next(t, step))
  {
    hide Enabled, Next;
    assert (steps + [step])[..|steps + [step]| - 1] == steps;
  }

  /** The first `n` steps of the deadline watchdog. */
  function Forcing(n: nat): seq<Step> {
    seq(n, _ => DogStep(DeadlineDog, true))
  }

  lemma RunTwo(s: Race, a: Step, b: Step)
    requires Enabled(s, a) && Enabled(Next(s, a), b)
    ensures Run(s, [a, b]) == Some(Next(Next(s, a), b))
  {
    hide Enabled, Next;
    assert Run(s, [a]) == Some(Next(s, a)) by {
      assert [a][..0] == [];
    }
    assert [a, b][..1] == [a];
  }

  lemma {:induction false} RunAppend(s: Race, a: seq<Step>, b: seq<Step>)
    ensures Run(s, a + b) == if Run(s, a).None? then None else Run(Run(s, a).value, b)
  {
    if b == [] {
      assert a + b == a;
    } else {
      hide Enabled, Next;
      assert (a + b)[..|a + b| - 1] == a + b[..|b| - 1];
      RunAppend(s, a, b[..|b| - 1]);
    }
  }

  function AfterForcing(s: Race, n: nat): Race {
    var payload := Some(s.timeout);
    if n == 0 then s
    else if n == 1 then s.(deadline := Fired(payload))
    else if n == 2 then s.(deadline := Entered(payload), once := Busy(Dog(DeadlineDog)))
    else if n == 3 then s.(deadline := Named(payload), once := Busy(Dog(DeadlineDog)), forceReason := payload)
    else if n == 4 then s.(deadline := Visible(payload), once := Busy(Dog(DeadlineDog)), forceReason := payload, forced := true)
    else s.(deadline := Away, once := Spent(Dog(DeadlineDog)), forceReason := payload, forced := true, closes := s.closes + [payload])
  }

  /** Left alone, the deadline watchdog of a running plugin closes the stream in five steps. */
  lemma ForcingRuns(s: Race, n: nat)
    requires n <= 5 && s.once.Fresh? && s.deadline.Asleep? && !s.stopped && !s.forced
    ensures Run(s, Forcing(n)) == Some(AfterForcing(s, n))
  {
    if n > 0 {
      ForcingRuns(s, n - 1);
      assert Forcing(n)[..n - 1] == Forcing(n - 1);
    }
  }

  // ---------- every run comes to its end ----------

  function Remaining(p: Place): nat {
    match p
    case Working => 9
    case Deciding(_) => 8
    case HookStarts(_) => 7
    case HookWrites(_, _) => 6
    case AtOnce(_) => 5
    case Inside(_) => 4
    case Leaving(_) => 3
    case FallbackReads(_) => 2
    case FallbackWrites(_, _) => 1
    case Over(_) => 0
  }

  function Lasting(w: Watch): nat {
    match w
    case Asleep => 5
    case Fired(_) => 4
    case Entered(_) => 3
    case Named(_) => 2
    case Visible(_) => 1
    case Away => 0
  }

  function Measure(s: Race): nat {
    Remaining(s.place) + Lasting(s.shutdown) + Lasting(s.deadline) + (if s.stopped then 0 else 1)
  }

  predicate AllOver(s: Race) {
    s.place.Over? && s.shutdown.Away? && s.deadline.Away?
  }

  lemma EndingRunsOut(s: Race, end: End)
    requires Enabled(s, EndingStep(end))
    ensures Measure(EndingNext(s, end)) < Measure(s)
  {
    hide Write;
  }

  lemma DogRunsOut(s: Race, dog: Watchdog, fires: bool)
    requires Enabled(s, DogStep(dog, fires))
    ensures var t := DogNext(s, dog, fires);
            && t.place == s.place && t.stopped == s.stopped
            && Lasting(t.shutdown) + Lasting(t.deadline) < Lasting(s.shutdown) + Lasting(s.deadline)
  {
    hide WatchNext, Marked, Lasting;
    WatchRunsOut(s, dog, fires);
    MarkedKeeps(s, dog);
  }

  lemma WatchRunsOut(s: Race, dog: Watchdog, fires: bool)
    requires Enabled(s, DogStep(dog, fires))
    ensures Lasting(WatchNext(s, dog, fires)) < Lasting(s.At(dog))
  {
  }

  lemma StepsRunOut(s: Race, step: Step)
    requires Enabled(s, step)
    ensures Measure(Next(s, step)) < Measure(s)
  {
    hide EndingNext, DogNext, Remaining, Lasting;
    if step.EndingStep? {
      EndingRunsOut(s, step.end);
    } else if step.DogStep? {
      DogRunsOut(s, step.dog, step.fires);
    }
  }

  /** The log call of the hook has not returned; the stream has been closed all the same. */
  predicate LeftInLog(s: Race) {
    s.setting.stall.InLog? && s.place.HookWrites? && |s.closes| == 1
  }

  lemma DeadlineCanMove(s: Race)
    requires RaceOk(s) && s.closes == [] && s.once != Busy(Ending)
    ensures exists step: Step :: !step.StopLife? && Enabled(s, step)
  {
    hide SummaryOk, PayloadOk, ForceOk;
    if s.once.Busy? && s.once.owner.Dog? {
      assert Enabled(s, DogStep(s.once.owner.dog, true));
    } else {
      assert Enabled(s, DogStep(DeadlineDog, true));
    }
  }

  /** Nobody waits for ever, even when the ending is stuck in a host call: a watchdog closes the stream,
      which ends an emit; only a log call that never returns is left behind, with the stream closed. */
  lemma SomeoneCanMove(s: Race, end: End)
    requires RaceOk(s) && !AllOver(s) && !LeftInLog(s)
    ensures exists step: Step :: !step.StopLife? && Enabled(s, step)
  {
    hide SummaryOk, PayloadOk, ForceOk;
    if Stuck(s) {
      DeadlineCanMove(s);
    } else if s.once.Busy? && s.once.owner.Dog? {
      assert Enabled(s, DogStep(s.once.owner.dog, true));
    } else if !s.place.Over? {
      assert Enabled(s, EndingStep(end));
    } else {
      var dog := if s.shutdown.Away? then DeadlineDog else ShutdownDog;
      assert Enabled(s, DogStep(dog, false));
    }
  }

  /** Every run has at most 20 steps, and can go on until all parties are gone, or all but an ending whose
      log call never returns; by then the stream has been closed. */
  lemma {:induction false} EveryRunEnds(setting: Setting, timeout: Failure, steps: seq<Step>, end: End)
    requires Run(Start(setting, timeout), steps).Some?
    ensures var s := Run(Start(setting, timeout), steps).value;
            && |steps| + Measure(s) <= 20
            && (AllOver(s) || LeftInLog(s) ==> |s.closes| == 1)
            && (!AllOver(s) && !LeftInLog(s) ==> exists step: Step :: !step.StopLife? && Enabled(s, step))
  {
    hide RaceOk, Enabled, Next, Measure, AllOver, LeftInLog;
    EveryRunIsOk(setting, timeout, steps);
    var s := Run(Start(setting, timeout), steps).value;
    if !AllOver(s) && !LeftInLog(s) {
      SomeoneCanMove(s, end);
    } else {
      ClosedInTheEnd(s);
    }
    if steps == [] {
      assert Measure(s) == 20 by {
        FirstMeasure(setting, timeout);
      }
    } else {
      EveryRunEnds(setting, timeout, steps[..|steps| - 1], end);
      StepsRunOut(Run(Start(setting, timeout), steps[..|steps| - 1]).value, steps[|steps| - 1]);
    }
  }

  lemma ClosedInTheEnd(s: Race)
    requires RaceOk(s) && (AllOver(s) || LeftInLog(s))
    ensures |s.closes| == 1
  {
    hide SummaryOk, PayloadOk, ForceOk;
  }

  lemma FirstMeasure(setting: Setting, timeout: Failure)
    ensures Measure(Start(setting, timeout)) == 20
  {
  }

  // ---------- what the record says ----------

  /** How an error is recorded: the client or the plugin went away, the upstream took too long, the request
      failed, or the upstream did. */
  lemma ExitExactly(err: Option<Failure>)
    ensures ExitForError(err) ==
              if err.None? then "completed"
              else if err.value.ClientGone? || (err.value.Api? && err.value.kind == "client_disconnected") then "cancelled"
              else if err.value.Api? && err.value.kind == "plugin_stopped" then "stopped"
              else if err.value.Api? && err.value.kind == "upstream_timeout" then "timeout"
              else if Tellable(err.value) then "failed" else "upstream_error"
  {
    if err.Some? {
      TellableIff(err.value);
    }
  }

  /** A record names the exit it is given, or the one set beforehand, or that of its error; a completed turn
      whose response was cut short counts as incomplete; and the kind of the error, if there was one. */
  lemma RecordExactly(c: Setting, exit: string, err: Option<Failure>)
    ensures var r := Finished(c, exit, err);
            && (exit != "" && exit != "completed" ==> r.exit == exit)
            && (exit == "" && c.preset != "" && c.preset != "completed" ==> r.exit == c.preset)
            && (exit == "" && c.preset == "" && err.Some? ==> r.exit == ExitForError(err))
            && (exit == "completed" || (exit == "" && c.preset == "completed") || (exit == "" && c.preset == "" && err.None?) ==>
                  r.exit == if c.incomplete then "incomplete" else "completed")
            && (err.None? ==> r.errorKind == "")
            && (err.Some? && err.value.Api? && err.value.kind != "" ==> r.errorKind == err.value.kind)
            && (err.Some? && (!err.value.Api? || err.value.kind == "") ==> r.errorKind == "plugin_error")
  {
    ExitExactly(err);
  }

  /** The reason of a silent forced close is that the plugin was stopped; any other is the error it closes
      with. */
  lemma ReasonExactly(payload: Option<Failure>)
    ensures ReasonOf(payload) == if payload.Some? then payload.value else Api("plugin_stopped", 503)
  {
  }
}
