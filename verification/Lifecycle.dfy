/** The generations of the plugin: `beginStream`, `shutdown` and the end of `configure` in
    internal/basispoints/service.go. A shutdown holds `lifeMu` from its start to the end of its wait, so it
    is several steps; the other operations are one step each. */
module Lifecycle {
  import opened Responses

  /** One generation: whether its context has been cancelled, and how many turns it has running. */
  datatype Life = Life(cancelled: bool, active: nat)

  /** Who holds `lifeMu`: a shutdown that has marked the service stopped, or has also cancelled. */
  datatype Holder = Nobody | Stopping(life: nat) | Awaiting(life: nat)

  datatype Service = Service(stopped: bool, current: nat, lives: seq<Life>, holder: Holder)

  datatype Step =
    | BeginStream
    | EndStream(life: nat)
    | ShutdownStarts
    | ShutdownCancels
    | ShutdownReturns(timedOut: bool)
    | Configure

  const FIRST := Service(false, 0, [Life(false, 0)], Nobody)

  predicate Shaped(s: Service) {
    s.current < |s.lives| && (s.holder.Nobody? || s.holder.life < |s.lives|)
  }

  predicate Enabled(s: Service, step: Step)
    requires Shaped(s)
  {
    match step
    case BeginStream => true
    case EndStream(life) => life < |s.lives| && s.lives[life].active > 0
    case ShutdownStarts => s.holder.Nobody?
    case ShutdownCancels => s.holder.Stopping?
    case ShutdownReturns(timedOut) => s.holder.Awaiting? && (timedOut || s.lives[s.holder.life].active == 0)
    case Configure => s.holder.Nobody?
  }

  function Next(s: Service, step: Step): Service
    requires Shaped(s) && Enabled(s, step)
  {
    match step
    case BeginStream =>
      if s.stopped then s
      else s.(lives := s.lives[s.current := s.lives[s.current].(active := s.lives[s.current].active + 1)])
    case EndStream(life) => s.(lives := s.lives[life := s.lives[life].(active := s.lives[life].active - 1)])
    case ShutdownStarts => s.(stopped := true, holder := Stopping(s.current))
    case ShutdownCancels =>
      s.(lives := s.lives[s.holder.life := s.lives[s.holder.life].(cancelled := true)], holder := Awaiting(s.holder.life))
    case ShutdownReturns(_) => s.(holder := Nobody)
    case Configure =>
      if s.stopped then s.(stopped := false, current := |s.lives|, lives := s.lives + [Life(false, 0)]) else s
  }

  /** The fields the operations share. */
  class Plugin {
    var stopped: bool
    var current: nat
    var lives: seq<Life>
    var holder: Holder

    constructor ()
      ensures Abs() == FIRST
    {
      stopped, current, lives, holder := false, 0, [Life(false, 0)], Nobody;
    }

    function Abs(): Service
      reads this
    {
      Service(stopped, current, lives, holder)
    }

    /** The generation a turn has been registered on; None when the plugin is stopped. */
    method Begin() returns (life: Option<nat>)
      requires Shaped(Abs())
      modifies this`lives
      ensures Abs() == Next(old(Abs()), BeginStream)
      ensures life == if stopped then None else Some(current)
    {
      if stopped {
        return None;
      }
      lives := lives[current := Life(lives[current].cancelled, lives[current].active + 1)];
      life := Some(current);
    }

    method Reconfigure()
      requires Shaped(Abs()) && holder.Nobody?
      modifies this
      ensures Abs() == Next(old(Abs()), Configure)
    {
      if stopped {
        current := |lives|;
        lives := lives + [Life(false, 0)];
      }
      stopped := false;
    }

    method StartShutdown()
      requires Shaped(Abs()) && holder.Nobody?
      modifies this
      ensures Abs() == Next(old(Abs()), ShutdownStarts)
    {
      stopped := true;
      holder := Stopping(current);
    }

    method CancelLife()
      requires Shaped(Abs()) && holder.Stopping?
      modifies this
      ensures Abs() == Next(old(Abs()), ShutdownCancels)
    {
      lives := lives[holder.life := Life(true, lives[holder.life].active)];
      holder := Awaiting(holder.life);
    }
  }

  /** A running service has a live current generation; a shutdown holds the lock for the current one; all
      earlier generations have been cancelled, and so has the current one once its shutdown has cancelled. */
  ghost predicate ServiceOk(s: Service) {
    && Shaped(s)
    && s.current == |s.lives| - 1
    && (forall g | 0 <= g < s.current :: s.lives[g].cancelled)
    && (!s.holder.Nobody? ==> s.stopped && s.holder.life == s.current)
    && (s.lives[s.current].cancelled ==> s.stopped)
    && (s.stopped && !s.holder.Stopping? ==> s.lives[s.current].cancelled)
  }

  lemma StepKeepsOk(s: Service, step: Step)
    requires ServiceOk(s) && Enabled(s, step)
    ensures ServiceOk(Next(s, step))
  {
  }

  /** What a single step may do to the generations. */
  lemma StepRespectsLives(s: Service, step: Step, g: nat)
    requires ServiceOk(s) && Enabled(s, step) && g < |s.lives|
    ensures var t := Next(s, step);
            && g < |t.lives|
            && (t.lives[g].cancelled && !s.lives[g].cancelled ==> step.ShutdownCancels? && s.holder == Stopping(g))
            && (t.lives[g].active > s.lives[g].active ==> step.BeginStream? && g == s.current && !s.stopped && !s.lives[g].cancelled)
            && (step.ShutdownReturns? && !step.timedOut ==> s.lives[s.holder.life].active == 0)
  {
  }

  function Run(s: Service, steps: seq<Step>): Option<Service>
    requires Shaped(s)
    ensures Run(s, steps).Some? ==> Shaped(Run(s, steps).value)
  {
    if steps == [] then Some(s)
    else
      match Run(s, steps[..|steps| - 1])
      case None => None
      case Some(t) => if Enabled(t, steps[|steps| - 1]) then Some(Next(t, steps[|steps| - 1])) else None
  }

  lemma {:induction false} RunKeepsOk(s: Service, steps: seq<Step>)
    requires Shaped(s) && ServiceOk(s) && Run(s, steps).Some?
    ensures ServiceOk(Run(s, steps).value)
  {
    hide ServiceOk, Next, Enabled;
    if steps != [] {
      RunKeepsOk(s, steps[..|steps| - 1]);
      StepKeepsOk(Run(s, steps[..|steps| - 1]).value, steps[|steps| - 1]);
    }
  }

  /** Over every run: a service that is not stopped has a live current generation, so a turn is only ever
      registered on one that has not been cancelled; and while a shutdown waits, the service stays stopped
      and no new generation appears. */
  lemma EveryRunIsOk(steps: seq<Step>)
    requires Run(FIRST, steps).Some?
    ensures var s := Run(FIRST, steps).value;
            && s.current < |s.lives|
            && (!s.stopped ==> !s.lives[s.current].cancelled && s.holder.Nobody?)
            && (!s.holder.Nobody? ==> s.stopped && s.holder.life == s.current)
            && (forall g | 0 <= g < |s.lives| && g != s.current :: s.lives[g].cancelled)
  {
    RunKeepsOk(FIRST, steps);
    hide Run;
  }

  /** Once a generation has been cancelled, its turns only ever become fewer, whatever is begun later: so a
      shutdown waits for the turns of its own generation and for no others. */
  lemma {:induction false} CancelledOnlyDrains(s: Service, steps: seq<Step>, g: nat)
    requires ServiceOk(s) && g < |s.lives| && s.lives[g].cancelled && Run(s, steps).Some?
    ensures var t := Run(s, steps).value;
            g < |t.lives| && t.lives[g].cancelled && t.lives[g].active <= s.lives[g].active
  {
    if steps != [] {
      var shorter := steps[..|steps| - 1];
      CancelledOnlyDrains(s, shorter, g);
      RunKeepsOk(s, shorter);
      StepRespectsLives(Run(s, shorter).value, steps[|steps| - 1], g);
      CancelLasts(Run(s, shorter).value, steps[|steps| - 1], g);
    }
    hide Next, Enabled, ServiceOk;
  }

  lemma CancelLasts(s: Service, step: Step, g: nat)
    requires ServiceOk(s) && Enabled(s, step) && g < |s.lives| && s.lives[g].cancelled
    ensures var t := Next(s, step); g < |t.lives| && t.lives[g].cancelled
  {
  }
}
