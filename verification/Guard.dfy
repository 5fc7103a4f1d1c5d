/** The guard of one upstream round trip: `upstreamGuard` of internal/basispoints/upstream_guard.go. A
    watcher goroutine waits for the plugin to stop, the client to leave or the time to run out and aborts the
    upstream; the caller attaches the stream it is given and releases the guard in the end; anyone may ask
    whether the round trip has been aborted. Every step below is one atomic action. */
module Guard {
  import opened Responses

  datatype Reason = Stopped | Disconnected | TimedOut

  /** The conditions themselves: the two channels, the deadline, and the watcher's timer. */
  datatype Signals = Signals(shutdown: bool, stop: bool, late: bool, timer: bool)

  /** `resolveLocked`: a recorded reason stays; otherwise the most important condition that holds.
      `timeoutNamed` says whether the guard has been given an error to report a timeout with. */
  function Resolve(reason: Option<Reason>, timeoutNamed: bool, signals: Signals, timerFired: bool): Option<Reason> {
    if reason.Some? then reason
    else if signals.shutdown then Some(Stopped)
    else if signals.stop then Some(Disconnected)
    else if (timerFired || signals.late) && timeoutNamed then Some(TimedOut)
    else None
  }

  datatype HostCall = CancelOperation | CloseStream(stream: string)

  datatype Party = Watcher | Caller

  /** `closeOnce`: while one party is inside, the other waits. */
  datatype Once = Fresh | Busy(owner: Party) | Spent

  datatype Watch =
    | Waiting
    | Woken(timerFired: bool)
    | Cancelling
    | Reading
    | AtOnce(stream: string)
    | Inside(stream: string)
    | Exited(aborted: bool)

  /** The caller attaches at most one stream, and only then releases. */
  datatype Call =
    | Requesting
    | Attaching(stream: string, aborted: bool)
    | Closing(stream: string)
    | Attached
    | Joining
    | Finishing
    | LastOnce(stream: string)
    | LastClose(stream: string)
    | Released

  datatype Race = Race(
    operation: bool, timeoutNamed: bool, signals: Signals,
    reason: Option<Reason>, stream: Option<string>, once: Once, done: bool,
    watch: Watch, call: Call, calls: seq<HostCall>)

  function Start(operation: bool, timeoutNamed: bool): Race {
    Race(operation, timeoutNamed, Signals(false, false, false, false), None, None, Fresh, false, Waiting, Requesting, [])
  }

  // ---------- the steps ----------

  datatype Signal = Shutdown | Stop | Deadline | Timer

  datatype Step =
    | Raise(signal: Signal)
    | Peek
    | Wake(fromDone: bool, timerFired: bool)
    | WatcherStep
    | Attach(stream: string)
    | Release
    | CallerStep

  function Raised(signals: Signals, signal: Signal): Signals {
    match signal
    case Shutdown => signals.(shutdown := true)
    case Stop => signals.(stop := true)
    case Deadline => signals.(late := true)
    case Timer => signals.(timer := true)
  }

  /** The watcher's `select` picks any channel that is ready. */
  predicate Ready(s: Race, fromDone: bool, timerFired: bool) {
    if fromDone then s.done
    else if timerFired then s.signals.timer
    else s.signals.stop || s.signals.shutdown
  }

  predicate Enabled(s: Race, step: Step) {
    match step
    case Raise(signal) => Raised(s.signals, signal) != s.signals
    case Peek => true
    case Wake(fromDone, timerFired) => s.watch.Waiting? && Ready(s, fromDone, timerFired)
    case WatcherStep => !s.watch.Waiting? && !s.watch.Exited? && !(s.watch.AtOnce? && s.once.Busy?)
    case Attach(_) => s.call.Requesting?
    case Release => s.call.Requesting? || s.call.Attached?
    case CallerStep =>
      match s.call
      case Attaching(_, aborted) => !aborted || !s.once.Busy?
      case Joining => s.watch.Exited?
      case LastOnce(_) => !s.once.Busy?
      case Closing(_) => true
      case Finishing => true
      case LastClose(_) => true
      case _ => false
  }

  function WatcherNext(s: Race): Race {
    match s.watch
    case Waiting => s
    case Woken(timerFired) => s.(watch := Cancelling, reason := Resolve(s.reason, s.timeoutNamed, s.signals, timerFired))
    case Cancelling => s.(watch := Reading, calls := s.calls + if s.operation then [CancelOperation] else [])
    case Reading => s.(watch := if s.stream.Some? then AtOnce(s.stream.value) else Exited(true))
    case AtOnce(id) => if s.once.Fresh? then s.(watch := Inside(id), once := Busy(Watcher)) else s.(watch := Exited(true))
    case Inside(id) => s.(watch := Exited(true), once := Spent, calls := s.calls + [CloseStream(id)])
    case Exited(_) => s
  }

  function CallerNext(s: Race): Race {
    match s.call
    case Attaching(id, aborted) =>
      if aborted && s.once.Fresh? then s.(call := Closing(id), once := Busy(Caller)) else s.(call := Attached)
    case Closing(id) => s.(call := Attached, once := Spent, calls := s.calls + [CloseStream(id)])
    case Joining => s.(call := Finishing)
    case Finishing =>
      if s.stream.Some? then s.(call := LastOnce(s.stream.value))
      else s.(call := Released, calls := s.calls + if s.operation then [CancelOperation] else [])
    case LastOnce(id) =>
      if s.once.Fresh? then s.(call := LastClose(id), once := Busy(Caller)) else s.(call := Released)
    case LastClose(id) => s.(call := Released, once := Spent, calls := s.calls + [CloseStream(id)])
    case _ => s
  }

  function Next(s: Race, step: Step): Race {
    match step
    case Raise(signal) => s.(signals := Raised(s.signals, signal))
    case Peek => s.(reason := Resolve(s.reason, s.timeoutNamed, s.signals, false))
    case Wake(fromDone, timerFired) => s.(watch := if fromDone then Exited(false) else Woken(timerFired))
    case WatcherStep => WatcherNext(s)
    case Attach(id) => if id == "" then s.(call := Attached) else s.(call := Attaching(id, s.reason.Some?), stream := Some(id))
    case Release => s.(call := Joining, done := true)
    case CallerStep => CallerNext(s)
  }

  // ---------- the invariant ----------

  function Closes(calls: seq<HostCall>): nat {
    if calls == [] then 0 else Closes(calls[..|calls| - 1]) + (if calls[|calls| - 1].CloseStream? then 1 else 0)
  }

  function Cancels(calls: seq<HostCall>): nat {
    if calls == [] then 0 else Cancels(calls[..|calls| - 1]) + (if calls[|calls| - 1].CancelOperation? then 1 else 0)
  }

  predicate Releasing(call: Call) {
    call.Joining? || call.Finishing? || call.LastOnce? || call.LastClose? || call.Released?
  }

  predicate AfterJoin(call: Call) {
    call.Finishing? || call.LastOnce? || call.LastClose? || call.Released?
  }

  predicate PastCancel(watch: Watch) {
    watch.Reading? || watch.AtOnce? || watch.Inside? || (watch.Exited? && watch.aborted)
  }

  /** Only the attached stream is ever closed, by whoever goes through `closeOnce` first. */
  ghost predicate ClosesOk(s: Race) {
    && Closes(s.calls) == (if s.once.Spent? then 1 else 0)
    && (forall c | c in s.calls && c.CloseStream? :: s.stream == Some(c.stream))
  }

  ghost predicate OnceOk(s: Race) {
    && (s.once == Busy(Watcher) <==> s.watch.Inside?)
    && (s.once == Busy(Caller) <==> s.call.Closing? || s.call.LastClose?)
    && (!s.once.Fresh? ==> s.stream.Some?)
    && (s.watch.AtOnce? || s.watch.Inside? ==> s.stream == Some(s.watch.stream))
    && (s.call.Attaching? || s.call.Closing? || s.call.LastOnce? || s.call.LastClose? ==> s.stream == Some(s.call.stream))
    && (s.call.Requesting? ==> s.stream.None?)
  }

  ghost predicate CloseOk(s: Race) {
    ClosesOk(s) && OnceOk(s)
  }

  ghost predicate OrderOk(s: Race) {
    && (s.done <==> Releasing(s.call))
    && (AfterJoin(s.call) ==> s.watch.Exited?)
    && (s.call.Released? && s.stream.Some? ==> s.once.Spent?)
  }

  /** How often the operation has been cancelled. */
  ghost predicate CancelOk(s: Race) {
    Cancels(s.calls) ==
      if !s.operation then 0
      else (if PastCancel(s.watch) then 1 else 0) + (if s.call.Released? && s.stream.None? then 1 else 0)
  }

  predicate WokenUp(watch: Watch) {
    watch.Cancelling? || PastCancel(watch)
  }

  /** After a wake-up there is a reason, unless only the timer fired and no error had been given for it.
      Then a watcher and a caller that attaches cannot miss each other: whichever comes second sees the
      other's mark and sees to the close. */
  ghost predicate AbortOk(s: Race) {
    s.timeoutNamed && WokenUp(s.watch) ==>
      && s.reason.Some?
      && (s.watch.Exited? && s.stream.Some? ==> !s.once.Fresh? || (s.call.Attaching? && s.call.aborted))
  }

  /** The recorded reason is a condition that holds. */
  ghost predicate ReasonOk(s: Race) {
    && (s.watch.Woken? ==> if s.watch.timerFired then s.signals.timer else s.signals.stop || s.signals.shutdown)
    && match s.reason
       case None => true
       case Some(Stopped) => s.signals.shutdown
       case Some(Disconnected) => s.signals.stop
       case Some(TimedOut) => s.timeoutNamed && (s.signals.late || s.signals.timer)
  }

  ghost predicate RaceOk(s: Race) {
    CloseOk(s) && OrderOk(s) && CancelOk(s) && AbortOk(s) && ReasonOk(s)
  }

  lemma CountOne(calls: seq<HostCall>, c: HostCall)
    ensures Closes(calls + [c]) == Closes(calls) + (if c.CloseStream? then 1 else 0)
    ensures Cancels(calls + [c]) == Cancels(calls) + (if c.CancelOperation? then 1 else 0)
  {
    assert (calls + [c])[..|calls + [c]| - 1] == calls;
  }

  lemma WatcherKeepsOrder(s: Race)
    requires CloseOk(s) && OrderOk(s) && Enabled(s, WatcherStep)
    ensures OrderOk(WatcherNext(s))
  {
    hide Closes, Cancels, Resolve;
  }

  lemma WatcherKeepsCalls(s: Race)
    requires CloseOk(s) && Enabled(s, WatcherStep)
    ensures ClosesOk(WatcherNext(s))
  {
    hide Closes, Cancels, Resolve;
    CountOne(s.calls, CancelOperation);
    assert s.calls + [] == s.calls;
    if s.watch.Inside? {
      CountOne(s.calls, CloseStream(s.watch.stream));
    }
  }

  lemma WatcherKeepsClose(s: Race)
    requires CloseOk(s) && Enabled(s, WatcherStep)
    ensures CloseOk(WatcherNext(s))
  {
    hide Closes, Cancels, Resolve, ClosesOk;
    WatcherKeepsCalls(s);
  }

  lemma WatcherKeepsCancel(s: Race)
    requires CloseOk(s) && OrderOk(s) && CancelOk(s) && Enabled(s, WatcherStep)
    ensures CancelOk(WatcherNext(s))
  {
    hide Cancels, Resolve, Closes;
    CountOne(s.calls, CancelOperation);
    assert s.calls + [] == s.calls;
    if s.watch.Inside? {
      CountOne(s.calls, CloseStream(s.watch.stream));
    }
  }

  lemma WatcherKeepsAbort(s: Race)
    requires CloseOk(s) && AbortOk(s) && ReasonOk(s) && Enabled(s, WatcherStep)
    ensures AbortOk(WatcherNext(s)) && ReasonOk(WatcherNext(s))
  {
    hide Closes;
  }

  lemma WatcherKeepsOk(s: Race)
    requires RaceOk(s) && Enabled(s, WatcherStep)
    ensures RaceOk(WatcherNext(s))
  {
    hide WatcherNext, CloseOk, OrderOk, CancelOk, AbortOk, ReasonOk;
    WatcherKeepsOrder(s);
    WatcherKeepsClose(s);
    WatcherKeepsCancel(s);
    WatcherKeepsAbort(s);
  }

  lemma CallerKeepsClose(s: Race)
    requires CloseOk(s) && OrderOk(s) && Enabled(s, CallerStep)
    ensures CloseOk(CallerNext(s)) && OrderOk(CallerNext(s))
  {
    hide Closes, Cancels, Resolve;
    CountOne(s.calls, CancelOperation);
    assert s.calls + [] == s.calls;
    if s.call.Closing? || s.call.LastClose? {
      CountOne(s.calls, CloseStream(s.call.stream));
    }
  }

  lemma CallerKeepsCancel(s: Race)
    requires CloseOk(s) && OrderOk(s) && CancelOk(s) && Enabled(s, CallerStep)
    ensures CancelOk(CallerNext(s))
  {
    hide Cancels, Resolve, Closes;
    CountOne(s.calls, CancelOperation);
    assert s.calls + [] == s.calls;
    if s.call.Closing? || s.call.LastClose? {
      CountOne(s.calls, CloseStream(s.call.stream));
    }
  }

  lemma CallerKeepsReason(s: Race)
    requires ReasonOk(s)
    ensures ReasonOk(CallerNext(s))
  {
    hide CallerNext;
    CallerKeeps(s);
  }

  lemma CallerKeepsAbort(s: Race)
    requires CloseOk(s) && AbortOk(s) && Enabled(s, CallerStep)
    ensures AbortOk(CallerNext(s))
  {
    hide Closes;
    if s.timeoutNamed && WokenUp(s.watch) && s.watch.Exited? && s.stream.Some? && s.once.Fresh? {
      assert s.call.Attaching? && s.call.aborted;
    } else {
      hide CloseOk;
    }
  }

  lemma CallerKeepsOk(s: Race)
    requires RaceOk(s) && Enabled(s, CallerStep)
    ensures RaceOk(CallerNext(s))
  {
    hide CallerNext, CloseOk, OrderOk, CancelOk, AbortOk, ReasonOk;
    CallerKeepsClose(s);
    CallerKeepsCancel(s);
    CallerKeepsReason(s);
    CallerKeepsAbort(s);
  }

  lemma StepKeepsOk(s: Race, step: Step)
    requires RaceOk(s) && Enabled(s, step)
    ensures RaceOk(Next(s, step))
  {
    hide Closes, Cancels, WatcherNext, CallerNext, RaceOk;
    if step.WatcherStep? {
      WatcherKeepsOk(s);
    } else if step.CallerStep? {
      CallerKeepsOk(s);
    } else if step.Attach? {
      AttachKeepsOk(s, step.stream);
    } else {
      SignalKeepsOk(s, step);
    }
  }

  lemma AttachKeepsOk(s: Race, id: string)
    requires RaceOk(s) && Enabled(s, Attach(id))
    ensures RaceOk(Next(s, Attach(id)))
  {
    hide Closes, Cancels;
  }

  lemma SignalKeepsOk(s: Race, step: Step)
    requires RaceOk(s) && Enabled(s, step) && (step.Raise? || step.Peek? || step.Wake? || step.Release?)
    ensures RaceOk(Next(s, step))
  {
    hide Closes, Cancels;
  }

  // ---------- the guard object ----------

  /** The fields of the guard, changed by the atomic steps of the race; the ghost fields say how far the
      two parties have got and what they have asked of the host. */
  class UpstreamGuard {
    const operation: bool
    const timeoutNamed: bool
    var reason: Option<Reason>
    var streamId: Option<string>
    var closeOnce: Once
    var done: bool
    ghost var signals: Signals
    ghost var watch: Watch
    ghost var call: Call
    ghost var calls: seq<HostCall>

    constructor (operation: bool, timeoutNamed: bool)
      ensures Abs() == Start(operation, timeoutNamed) && Valid()
    {
      this.operation, this.timeoutNamed := operation, timeoutNamed;
      reason, streamId, closeOnce, done := None, None, Fresh, false;
      signals, watch, call, calls := Signals(false, false, false, false), Waiting, Requesting, [];
      new;
      FirstIsOk(operation, timeoutNamed);
    }

    ghost function Abs(): Race
      reads this
    {
      Race(operation, timeoutNamed, signals, reason, streamId, closeOnce, done, watch, call, calls)
    }

    ghost predicate Valid()
      reads this
    {
      RaceOk(Abs())
    }

    /** `resolveLocked` on the conditions as they are. */
    method ResolveLocked(now: Signals, timerFired: bool) returns (result: Option<Reason>)
      modifies this`reason
      ensures reason == Resolve(old(reason), timeoutNamed, now, timerFired) && result == reason
    {
      if reason.Some? {
        return reason;
      }
      var timedOut := timerFired || now.late;
      if now.shutdown {
        reason := Some(Stopped);
      } else if now.stop {
        reason := Some(Disconnected);
      } else if timedOut && timeoutNamed {
        reason := Some(TimedOut);
      }
      result := reason;
    }

    /** `aborted`, which anyone may call at any time. */
    method Aborted(now: Signals) returns (result: Option<Reason>)
      requires Valid() && now == signals
      modifies this`reason
      ensures Valid() && Abs() == Next(old(Abs()), Peek) && result == reason
    {
      hide RaceOk;
      StepKeepsOk(Abs(), Peek);
      result := ResolveLocked(now, false);
    }

    /** The watcher has been woken up. */
    method WatcherResolves(now: Signals, timerFired: bool)
      requires Valid() && now == signals && watch == Woken(timerFired)
      modifies this`reason, this`watch
      ensures Valid() && Abs() == Next(old(Abs()), WatcherStep)
    {
      hide RaceOk;
      StepKeepsOk(Abs(), WatcherStep);
      var _ := ResolveLocked(now, timerFired);
      watch := Cancelling;
    }

    /** `attach` up to its close: the stream is recorded, and a caller that is told that the guard has
        aborted now owes the close. */
    method RecordStream(stream: string) returns (aborted: bool)
      requires Valid() && call.Requesting?
      modifies this`streamId, this`call
      ensures Valid() && Abs() == Next(old(Abs()), Attach(stream))
      ensures aborted <==> call == Attaching(stream, true)
      ensures watch == Exited(true) && timeoutNamed && stream != "" ==> aborted
    {
      hide CloseOk, OrderOk, CancelOk, ReasonOk;
      StepKeepsOk(Abs(), Attach(stream));
      if stream == "" {
        call := Attached;
        return false;
      }
      streamId := Some(stream);
      aborted := reason.Some?;
      call := Attaching(stream, aborted);
    }

    /** The beginning of `release`: the watcher is told to go. */
    method BeginRelease()
      requires Valid() && (call.Requesting? || call.Attached?)
      modifies this`done, this`call
      ensures Valid() && Abs() == Next(old(Abs()), Release)
    {
      hide RaceOk;
      StepKeepsOk(Abs(), Release);
      done := true;
      call := Joining;
    }

    /** The end of `release`, once the watcher has gone: the stream that was attached, if any, is left to
        be closed, and an operation nobody has claimed is cancelled. */
    method EndRelease() returns (stream: Option<string>)
      requires Valid() && call.Finishing?
      modifies this`call, this`calls
      ensures Valid() && Abs() == Next(old(Abs()), CallerStep)
      ensures stream == streamId && (stream.None? ==> call.Released?)
    {
      hide RaceOk;
      StepKeepsOk(Abs(), CallerStep);
      stream := streamId;
      if stream.Some? {
        call := LastOnce(stream.value);
      } else {
        calls := calls + if operation then [CancelOperation] else [];
        call := Released;
      }
    }

    /** `closeStream` on behalf of the watcher: entering `closeOnce`, and closing if it was the first. */
    method WatcherEntersOnce() returns (first: bool)
      requires Valid() && watch.AtOnce? && !closeOnce.Busy?
      modifies this`closeOnce, this`watch
      ensures Valid() && Abs() == Next(old(Abs()), WatcherStep)
      ensures first <==> watch.Inside?
    {
      hide RaceOk;
      StepKeepsOk(Abs(), WatcherStep);
      first := closeOnce.Fresh?;
      if first {
        watch := Inside(watch.stream);
        closeOnce := Busy(Watcher);
      } else {
        watch := Exited(true);
      }
    }

    method WatcherCloses()
      requires Valid() && watch.Inside?
      modifies this`closeOnce, this`watch, this`calls
      ensures Valid() && Abs() == Next(old(Abs()), WatcherStep)
      ensures streamId.Some? && calls == old(calls) + [CloseStream(streamId.value)]
    {
      hide OrderOk, CancelOk, AbortOk, ReasonOk, Closes;
      StepKeepsOk(Abs(), WatcherStep);
      calls := calls + [CloseStream(watch.stream)];
      watch := Exited(true);
      closeOnce := Spent;
    }
  }

  // ---------- every run ----------

  /** The state after the steps; None if one of them was not enabled. */
  function Run(s: Race, steps: seq<Step>): Option<Race> {
    if steps == [] then Some(s)
    else
      match Run(s, steps[..|steps| - 1])
      case None => None
      case Some(t) => if Enabled(t, steps[|steps| - 1]) then Some(Next(t, steps[|steps| - 1])) else None
  }

  lemma {:induction false} RunKeepsOk(s: Race, steps: seq<Step>)
    requires RaceOk(s) && Run(s, steps).Some?
    ensures RaceOk(Run(s, steps).value) && Run(s, steps).value.timeoutNamed == s.timeoutNamed
    ensures Run(s, steps).value.operation == s.operation
  {
    hide RaceOk, Enabled, Next;
    if steps != [] {
      RunKeepsOk(s, steps[..|steps| - 1]);
      StepKeepsOk(Run(s, steps[..|steps| - 1]).value, steps[|steps| - 1]);
      StepMonotone(Run(s, steps[..|steps| - 1]).value, steps[|steps| - 1]);
    }
  }

  lemma {:induction false} RunSplit(s: Race, a: Step, rest: seq<Step>)
    requires Enabled(s, a)
    ensures Run(s, [a] + rest) == Run(Next(s, a), rest)
  {
    hide Enabled, Next;
    var all := [a] + rest;
    if rest == [] {
      assert all[..|all| - 1] == [];
    } else {
      assert all[..|all| - 1] == [a] + rest[..|rest| - 1];
      RunSplit(s, a, rest[..|rest| - 1]);
    }
  }

  lemma RunNone(s: Race)
    ensures Run(s, []) == Some(s)
  {
  }

  lemma StepMonotone(s: Race, step: Step)
    ensures Next(s, step).timeoutNamed == s.timeoutNamed && Next(s, step).operation == s.operation
    ensures var t := Next(s, step);
            && (s.signals.shutdown ==> t.signals.shutdown) && (s.signals.stop ==> t.signals.stop)
            && (s.reason.Some? ==> t.reason == s.reason)
            && (s.reason.None? && t.reason.Some? && s.signals.shutdown ==> t.reason == Some(Stopped))
            && (s.reason.None? && t.reason == Some(TimedOut) ==> !s.signals.stop)
  {
    hide CallerNext, WatcherNext;
    CallerKeeps(s);
    WatcherKeeps(s);
  }

  lemma WatcherKeeps(s: Race)
    ensures var t := WatcherNext(s);
            && t.timeoutNamed == s.timeoutNamed && t.operation == s.operation && t.signals == s.signals
            && (t.reason == s.reason || (s.watch.Woken? && t.reason == Resolve(s.reason, s.timeoutNamed, s.signals, s.watch.timerFired)))
  {
    hide Resolve;
  }

  lemma CallerKeeps(s: Race)
    ensures var t := CallerNext(s); t == s.(call := t.call, once := t.once, calls := t.calls)
  {
  }

  lemma FirstIsOk(operation: bool, timeoutNamed: bool)
    ensures RaceOk(Start(operation, timeoutNamed))
  {
  }

  lemma UpstreamClosed(s: Race)
    requires RaceOk(s)
    ensures Closes(s.calls) <= 1
    ensures forall c | c in s.calls && c.CloseStream? :: s.stream == Some(c.stream)
    ensures s.call.Released? ==> Closes(s.calls) == (if s.stream.Some? then 1 else 0)
    ensures s.timeoutNamed && s.watch == Exited(true) && s.call.Attached? && s.stream.Some? ==> Closes(s.calls) == 1
    ensures Cancels(s.calls) <= 2 && (Cancels(s.calls) == 2 ==> s.call.Released? && s.stream.None?)
    ensures s.operation && s.call.Released? ==>
              Cancels(s.calls) == (if s.watch == Exited(true) then 1 else 0) + (if s.stream.None? then 1 else 0)
  {
    hide Closes, Cancels;
    if s.once.Busy? {
      match s.once.owner {
        case Watcher => assert s.once == Busy(Watcher);
        case Caller => assert s.once == Busy(Caller);
      }
    }
  }

  /** Over every run: the upstream stream is closed at most once and no other stream is; exactly once when
      `release` has returned, if one was attached; and already, without any release, when a watcher woken
      up by an abort and the attach have both finished, provided timeouts have been given an error. The
      operation is cancelled once by an aborting watcher and once by a `release` that finds no stream. */
  lemma UpstreamClosedOnce(operation: bool, timeoutNamed: bool, steps: seq<Step>)
    requires Run(Start(operation, timeoutNamed), steps).Some?
    ensures var s := Run(Start(operation, timeoutNamed), steps).value;
            && Closes(s.calls) <= 1
            && (forall c | c in s.calls && c.CloseStream? :: s.stream == Some(c.stream))
            && (s.call.Released? ==> Closes(s.calls) == (if s.stream.Some? then 1 else 0))
            && (timeoutNamed && s.watch == Exited(true) && s.call.Attached? && s.stream.Some? ==> Closes(s.calls) == 1)
            && Cancels(s.calls) <= 2
            && (Cancels(s.calls) == 2 ==> s.call.Released? && s.stream.None?)
            && (operation && s.call.Released? ==>
                  Cancels(s.calls) == (if s.watch == Exited(true) then 1 else 0) + (if s.stream.None? then 1 else 0))
  {
    FirstIsOk(operation, timeoutNamed);
    RunKeepsOk(Start(operation, timeoutNamed), steps);
    hide Run, RaceOk;
    UpstreamClosed(Run(Start(operation, timeoutNamed), steps).value);
  }

  /** After `release` has returned, the guard never calls the host again. */
  lemma {:induction false} NoCallAfterRelease(s: Race, steps: seq<Step>)
    requires RaceOk(s) && s.call.Released? && Run(s, steps).Some?
    ensures var t := Run(s, steps).value; t.calls == s.calls && t.call.Released?
  {
    hide RaceOk;
    if steps != [] {
      var shorter := steps[..|steps| - 1];
      NoCallAfterRelease(s, shorter);
      RunKeepsOk(s, shorter);
      assert Run(s, shorter).value.watch.Exited? by {
        JoinedBeforeRelease(Run(s, shorter).value);
      }
    }
  }

  lemma JoinedBeforeRelease(s: Race)
    requires RaceOk(s) && s.call.Released?
    ensures s.watch.Exited?
  {
  }

  /** A reason never changes, and is the most important one: once the plugin has stopped, an unaborted
      round trip can only be reported as stopped; once the client has left, never as timed out. */
  lemma {:induction false} ReasonIsFinal(s: Race, steps: seq<Step>)
    requires Run(s, steps).Some?
    ensures var t := Run(s, steps).value;
            && (s.signals.shutdown ==> t.signals.shutdown) && (s.signals.stop ==> t.signals.stop)
            && (s.reason.Some? ==> t.reason == s.reason)
            && (s.reason.None? && s.signals.shutdown && t.reason.Some? ==> t.reason == Some(Stopped))
            && (s.reason.None? && s.signals.stop ==> t.reason != Some(TimedOut))
  {
    hide Next, Enabled;
    if steps != [] {
      ReasonIsFinal(s, steps[..|steps| - 1]);
      StepMonotone(Run(s, steps[..|steps| - 1]).value, steps[|steps| - 1]);
    }
  }

  /** No reason is reported that does not hold. */
  lemma ReasonIsTrue(operation: bool, timeoutNamed: bool, steps: seq<Step>)
    requires Run(Start(operation, timeoutNamed), steps).Some?
    ensures var s := Run(Start(operation, timeoutNamed), steps).value;
            && (s.reason == Some(Stopped) ==> s.signals.shutdown)
            && (s.reason == Some(Disconnected) ==> s.signals.stop)
            && (s.reason == Some(TimedOut) ==> timeoutNamed && (s.signals.late || s.signals.timer))
            && (timeoutNamed && WokenUp(s.watch) ==> s.reason.Some?)
  {
    FirstIsOk(operation, timeoutNamed);
    RunKeepsOk(Start(operation, timeoutNamed), steps);
    hide Run, CloseOk, CancelOk, OrderOk;
  }

  /** Both cancels do occur: a stopped plugin wakes the watcher, and no stream is ever attached. */
  const CANCELLING := [Raise(Shutdown), Wake(false, false), WatcherStep, WatcherStep, WatcherStep, Release, CallerStep, CallerStep]

  lemma TwoCancels(timeoutNamed: bool)
    ensures Run(Start(true, timeoutNamed), CANCELLING).Some?
    ensures var s := Run(Start(true, timeoutNamed), CANCELLING).value;
            s.call.Released? && s.calls == [CancelOperation, CancelOperation] && Cancels(s.calls) == 2
  {
    hide Run;
    var s0 := Start(true, timeoutNamed);
    var s1 := s0.(signals := s0.signals.(shutdown := true));
    assert CANCELLING == [Raise(Shutdown)] + CANCELLING[1..];
    RunSplit(s0, Raise(Shutdown), CANCELLING[1..]);
    assert CANCELLING[1..] == [Wake(false, false)] + CANCELLING[2..];
    RunSplit(s1, Wake(false, false), CANCELLING[2..]);
    WatcherCancels(s1.(watch := Woken(false)));
    assert Cancels([CancelOperation, CancelOperation]) == 2 by {
      assert [CancelOperation, CancelOperation][..1] == [CancelOperation] && [CancelOperation][..0] == [];
    }
  }

  lemma WatcherCancels(s: Race)
    requires s.operation && s.watch == Woken(false) && s.calls == [] && s.signals.shutdown && s.reason.None?
    requires s.stream.None? && s.call.Requesting?
    ensures Run(s, CANCELLING[2..]).Some?
    ensures Run(s, CANCELLING[2..]).value.calls == [CancelOperation, CancelOperation] && Run(s, CANCELLING[2..]).value.call.Released?
  {
    hide Run;
    var s1 := s.(watch := Cancelling, reason := Some(Stopped));
    assert CANCELLING[2..] == [WatcherStep] + CANCELLING[3..];
    RunSplit(s, WatcherStep, CANCELLING[3..]);
    assert CANCELLING[3..] == [WatcherStep] + CANCELLING[4..];
    RunSplit(s1, WatcherStep, CANCELLING[4..]);
    var s2 := s1.(watch := Reading, calls := [CancelOperation]);
    assert s1.calls + [CancelOperation] == s2.calls;
    assert CANCELLING[4..] == [WatcherStep] + CANCELLING[5..];
    RunSplit(s2, WatcherStep, CANCELLING[5..]);
    ReleaseCancels(s2.(watch := Exited(true)));
  }

  lemma ReleaseCancels(s: Race)
    requires s.operation && s.watch == Exited(true) && s.calls == [CancelOperation] && s.stream.None? && s.call.Requesting?
    ensures Run(s, CANCELLING[5..]).Some?
    ensures Run(s, CANCELLING[5..]).value.calls == [CancelOperation, CancelOperation] && Run(s, CANCELLING[5..]).value.call.Released?
  {
    hide Run;
    assert CANCELLING[5..] == [Release] + CANCELLING[6..];
    RunSplit(s, Release, CANCELLING[6..]);
    var s1 := s.(call := Joining, done := true);
    assert CANCELLING[6..] == [CallerStep] + CANCELLING[7..];
    RunSplit(s1, CallerStep, CANCELLING[7..]);
    var s2 := s1.(call := Finishing);
    assert CANCELLING[7..] == [CallerStep] + CANCELLING[8..];
    RunSplit(s2, CallerStep, CANCELLING[8..]);
    assert s2.calls + [CancelOperation] == [CancelOperation, CancelOperation];
    RunNone(s2.(call := Released, calls := [CancelOperation, CancelOperation]));
  }

  // ---------- release returns ----------

  function WatchLeft(watch: Watch): nat {
    match watch
    case Waiting => 6
    case Woken(_) => 5
    case Cancelling => 4
    case Reading => 3
    case AtOnce(_) => 2
    case Inside(_) => 1
    case Exited(_) => 0
  }

  function CallLeft(call: Call): nat {
    match call
    case Requesting => 8
    case Attaching(_, _) => 7
    case Closing(_) => 6
    case Attached => 5
    case Joining => 4
    case Finishing => 3
    case LastOnce(_) => 2
    case LastClose(_) => 1
    case Released => 0
  }

  lemma WatcherRunsOut(s: Race)
    requires !s.watch.Waiting? && !s.watch.Exited?
    ensures WatchLeft(WatcherNext(s).watch) < WatchLeft(s.watch) && WatcherNext(s).call == s.call
  {
    hide Resolve;
  }

  lemma CallerRunsOut(s: Race)
    requires Enabled(s, CallerStep)
    ensures CallLeft(CallerNext(s).call) < CallLeft(s.call) && CallerNext(s).watch == s.watch
  {
  }

  /** `release` waits for the watcher, but never for ever: until it has returned one of the two can go on,
      and each of them only has a bounded number of steps left. */
  lemma ReleaseReturns(s: Race)
    requires RaceOk(s) && Releasing(s.call) && !s.call.Released?
    ensures Enabled(s, CallerStep) || Enabled(s, WatcherStep) || Enabled(s, Wake(true, false))
    ensures forall step | Enabled(s, step) ::
              var t := Next(s, step);
              if step.Raise? || step.Peek? then t.watch == s.watch && t.call == s.call
              else WatchLeft(t.watch) + CallLeft(t.call) < WatchLeft(s.watch) + CallLeft(s.call)
  {
    if s.once.Busy? {
      match s.once.owner {
        case Watcher => assert s.once == Busy(Watcher);
        case Caller => assert s.once == Busy(Caller);
      }
    }
    forall step | Enabled(s, step)
      ensures var t := Next(s, step);
              if step.Raise? || step.Peek? then t.watch == s.watch && t.call == s.call
              else WatchLeft(t.watch) + CallLeft(t.call) < WatchLeft(s.watch) + CallLeft(s.call)
    {
      hide RaceOk, WatcherNext, CallerNext;
      if step.WatcherStep? {
        WatcherRunsOut(s);
      } else if step.CallerStep? {
        CallerRunsOut(s);
      }
    }
  }

  // ---------- the close that may be missing ----------

  /** The watcher has aborted and the attach is done, but nobody has closed the stream. */
  predicate AbortLost(s: Race) {
    s.watch == Exited(true) && s.call.Attached? && s.stream.Some? && Closes(s.calls) == 0
  }

  const LOSING := [Raise(Timer), Wake(false, true), WatcherStep, WatcherStep, WatcherStep, Attach("s"), CallerStep]

  /** Without an error for timeouts an abort can pass a later attach unnoticed. */
  lemma UnnamedTimeoutLoses(operation: bool)
    ensures Run(Start(operation, false), LOSING).Some? && AbortLost(Run(Start(operation, false), LOSING).value)
  {
    hide Run, Closes;
    var s0 := Start(operation, false);
    var s1 := s0.(signals := s0.signals.(timer := true));
    assert LOSING == [Raise(Timer)] + LOSING[1..];
    RunSplit(s0, Raise(Timer), LOSING[1..]);
    assert LOSING[1..] == [Wake(false, true)] + LOSING[2..];
    RunSplit(s1, Wake(false, true), LOSING[2..]);
    WatcherMisses(s1.(watch := Woken(true)));
  }

  lemma WatcherMisses(s: Race)
    requires s.watch == Woken(true) && !s.timeoutNamed && s.call.Requesting? && s.calls == []
    requires s.stream.None? && s.reason.None? && !s.signals.shutdown && !s.signals.stop
    ensures Run(s, LOSING[2..]).Some? && AbortLost(Run(s, LOSING[2..]).value)
  {
    hide Run, Closes;
    var calls := if s.operation then [CancelOperation] else [];
    assert s.calls + calls == calls;
    assert LOSING[2..] == [WatcherStep] + LOSING[3..];
    RunSplit(s, WatcherStep, LOSING[3..]);
    assert LOSING[3..] == [WatcherStep] + LOSING[4..];
    RunSplit(s.(watch := Cancelling), WatcherStep, LOSING[4..]);
    assert LOSING[4..] == [WatcherStep] + LOSING[5..];
    RunSplit(s.(watch := Reading, calls := calls), WatcherStep, LOSING[5..]);
    AttachMisses(s.(watch := Exited(true), calls := calls));
  }

  lemma AttachMisses(s: Race)
    requires s.watch == Exited(true) && s.call.Requesting? && s.reason.None?
    requires s.calls == [] || s.calls == [CancelOperation]
    ensures Run(s, LOSING[5..]).Some? && AbortLost(Run(s, LOSING[5..]).value)
  {
    assert Closes(s.calls) == 0 by {
      assert s.calls != [] ==> s.calls[..0] == [];
    }
    hide Run, Closes;
    assert LOSING[5..] == [Attach("s")] + LOSING[6..];
    RunSplit(s, Attach("s"), LOSING[6..]);
    var t := s.(call := Attaching("s", false), stream := Some("s"));
    assert LOSING[6..] == [CallerStep] + LOSING[7..];
    RunSplit(t, CallerStep, LOSING[7..]);
    RunNone(t.(call := Attached));
  }

  /** An abort is never lost exactly when timeouts have been given an error, as every caller does. */
  lemma AbortNeverLost(operation: bool, timeoutNamed: bool)
    ensures timeoutNamed <==>
              forall steps | Run(Start(operation, timeoutNamed), steps).Some? ::
                !AbortLost(Run(Start(operation, timeoutNamed), steps).value)
  {
    if timeoutNamed {
      forall steps | Run(Start(operation, timeoutNamed), steps).Some?
        ensures !AbortLost(Run(Start(operation, timeoutNamed), steps).value)
      {
        UpstreamClosedOnce(operation, timeoutNamed, steps);
      }
    } else {
      UnnamedTimeoutLoses(operation);
    }
  }

  // ---------- what is attached ----------

  lemma StepAttaches(s: Race, step: Step)
    requires Enabled(s, step)
    ensures Next(s, step).stream == if step.Attach? && step.stream != "" then Some(step.stream) else s.stream
  {
    hide Resolve;
  }

  /** Over every run: a stream without an id is never attached, and so never closed; and what is attached is
      what the caller attached. */
  lemma {:induction false} AttachedExactly(operation: bool, timeoutNamed: bool, steps: seq<Step>)
    requires Run(Start(operation, timeoutNamed), steps).Some?
    ensures var s := Run(Start(operation, timeoutNamed), steps).value;
            && s.stream != Some("")
            && (s.stream.Some? ==> Attach(s.stream.value) in steps)
            && (s.stream.None? ==> forall id | id != "" :: Attach(id) !in steps)
            && CloseStream("") !in s.calls
  {
    hide Next, Enabled, Closes, Cancels;
    if steps != [] {
      var shorter, step := steps[..|steps| - 1], steps[|steps| - 1];
      assert steps == shorter + [step];
      AttachedExactly(operation, timeoutNamed, shorter);
      StepAttaches(Run(Start(operation, timeoutNamed), shorter).value, step);
      UpstreamClosedOnce(operation, timeoutNamed, steps);
    }
  }
}
