/** The verdict of a request's `relay_summary` line: the counting methods of `relaySummary` in
    internal/basispoints/relay_summary.go. */
module Summary {
  import opened Responses
  import opened Relay
  import opened Batch

  /** The result of one check of a tool batch. */
  datatype Verdict = NotRun | NoCall | Sound | Legacy | Invalid(reason: string)

  datatype Regen = NoRegen | Success | Exhausted | Aborted

  predicate Passed(v: Verdict) {
    v.NoCall? || v.Sound? || v.Legacy?
  }

  function RelayResult(check: Result<Transformed, string>): Verdict {
    match check
    case Err(reason) => Invalid(reason)
    case Ok(t) => if t.stats.calls == 0 then NoCall else if t.stats.legacy > 0 then Legacy else Sound
  }

  /** What happens in a request, as far as the summary counts it. */
  datatype Mark = Began | Checked(check: Result<Transformed, string>) | Decided

  datatype Tally = Tally(attempts: nat, first: Verdict, final: Verdict, checks: nat, regen: bool, legacyCalls: nat)

  const NOTHING := Tally(0, NotRun, NotRun, 0, false, 0)

  function Note(t: Tally, m: Mark): Tally {
    match m
    case Began => t.(attempts := t.attempts + 1, final := if t.attempts > 0 then NotRun else t.final)
    case Checked(check) =>
      var v := RelayResult(check);
      t.(checks := t.checks + 1, first := if t.first.NotRun? then v else t.first, final := v,
         legacyCalls := t.legacyCalls + (if check.Ok? then check.value.stats.legacy else 0))
    case Decided => t.(regen := true)
  }

  function TallyOf(log: seq<Mark>): Tally {
    if log == [] then NOTHING else Note(TallyOf(log[..|log| - 1]), log[|log| - 1])
  }

  lemma TallyNext(log: seq<Mark>, m: Mark)
    ensures TallyOf(log + [m]) == Note(TallyOf(log), m)
  {
    hide Note;
    assert (log + [m])[..|log|] == log;
  }

  /** The regeneration entry that `finish` writes. */
  function RegenOf(t: Tally): Regen {
    if !t.regen then NoRegen
    else if t.checks >= 2 && Passed(t.final) then Success
    else if t.final.Invalid? && t.checks >= 2 then Exhausted
    else Aborted
  }

  class RelaySummary {
    var attempts: nat
    var first: Verdict
    var final: Verdict
    var checks: nat
    var regen: bool
    var legacyCalls: nat
    /** Everything noted so far. */
    ghost var log: seq<Mark>

    constructor ()
      ensures Valid() && log == []
    {
      attempts, checks, legacyCalls, regen := 0, 0, 0, false;
      first, final := NotRun, NotRun;
      log := [];
    }

    ghost function Abs(): Tally
      reads this
    {
      Tally(attempts, first, final, checks, regen, legacyCalls)
    }

    ghost predicate Valid()
      reads this
    {
      Abs() == TallyOf(log)
    }

    method AttemptStarted()
      requires Valid()
      modifies this
      ensures Valid() && log == old(log) + [Began]
    {
      hide TallyOf;
      TallyNext(log, Began);
      if attempts > 0 {
        final := NotRun;
      }
      attempts := attempts + 1;
      log := log + [Began];
    }

    method Validated(check: Result<Transformed, string>)
      requires Valid()
      modifies this
      ensures Valid() && log == old(log) + [Checked(check)]
    {
      hide TallyOf, RelayResult;
      TallyNext(log, Checked(check));
      var result := RelayResult(check);
      checks := checks + 1;
      if first.NotRun? {
        first := result;
      }
      final := result;
      if check.Ok? {
        legacyCalls := legacyCalls + check.value.stats.legacy;
      }
      log := log + [Checked(check)];
    }

    method Regenerating()
      requires Valid()
      modifies this
      ensures Valid() && log == old(log) + [Decided]
    {
      hide TallyOf;
      TallyNext(log, Decided);
      regen := true;
      log := log + [Decided];
    }

    method RegenEntry() returns (entry: Regen)
      requires Valid()
      ensures entry == RegenOf(TallyOf(log))
    {
      entry := NoRegen;
      if regen {
        if checks >= 2 && (final.Sound? || final.NoCall? || final.Legacy?) {
          entry := Success;
        } else if final.Invalid? && checks >= 2 {
          entry := Exhausted;
        } else {
          entry := Aborted;
        }
      }
    }
  }

  // ---------- what the verdict means ----------

  /** The check an attempt came to, if it came to one. */
  function ChecksOf(check: Option<Result<Transformed, string>>): seq<Mark> {
    if check.Some? then [Checked(check.value)] else []
  }

  /** A request with one attempt; `decided` when it was to be regenerated but was not begun again. */
  function OneAttempt(check: Option<Result<Transformed, string>>, decided: bool): seq<Mark> {
    [Began] + ChecksOf(check) + (if decided then [Decided] else [])
  }

  function TwoAttempts(check: Result<Transformed, string>, second: Option<Result<Transformed, string>>): seq<Mark> {
    OneAttempt(Some(check), true) + [Began] + ChecksOf(second)
  }

  function Judged(check: Option<Result<Transformed, string>>): Verdict {
    if check.Some? then RelayResult(check.value) else NotRun
  }

  function LegacyIn(check: Option<Result<Transformed, string>>): nat {
    if check.Some? && check.value.Ok? then check.value.value.stats.legacy else 0
  }

  lemma TallyAppend(log: seq<Mark>, m: Mark)
    ensures TallyOf(log + [m]) == Note(TallyOf(log), m)
  {
    var all := log + [m];
    assert all[..|all| - 1] == log;
  }

  lemma TallyChecks(log: seq<Mark>, check: Option<Result<Transformed, string>>)
    ensures TallyOf(log + ChecksOf(check)) == if check.Some? then Note(TallyOf(log), Checked(check.value)) else TallyOf(log)
  {
    if check.Some? {
      TallyAppend(log, Checked(check.value));
    } else {
      assert log + ChecksOf(check) == log;
    }
  }

  /** One attempt: its check, if any, is both first and final. A regeneration that was decided but never
      begun counts as aborted and leaves the failed check as the final one. */
  lemma OneAttemptVerdict(check: Option<Result<Transformed, string>>, decided: bool)
    ensures var t := TallyOf(OneAttempt(check, decided));
            && t.attempts == 1 && t.first == t.final == Judged(check) && t.legacyCalls == LegacyIn(check)
            && RegenOf(t) == if decided then Aborted else NoRegen
  {
    TallyAppend([], Began);
    assert [] + [Began] == [Began];
    TallyChecks([Began], check);
    var log := [Began] + ChecksOf(check);
    if decided {
      TallyAppend(log, Decided);
    } else {
      assert log + [] == log;
    }
  }

  /** Two attempts: first is the failed check, final the second attempt's; the regeneration is a success
      exactly when that one passed, exhausted exactly when it failed, and aborted when there was none. Only
      passing batches count their calls in the older form. */
  lemma TwoAttemptsVerdict(check: Result<Transformed, string>, second: Option<Result<Transformed, string>>)
    requires check.Err?
    ensures var t := TallyOf(TwoAttempts(check, second));
            && t.attempts == 2 && t.first == RelayResult(check) && t.final == Judged(second)
            && t.legacyCalls == LegacyIn(second)
            && RegenOf(t) == match second
                             case None => Aborted
                             case Some(c) => if c.Ok? then Success else Exhausted
  {
    OneAttemptVerdict(Some(check), true);
    var log := OneAttempt(Some(check), true);
    var before := [Began] + ChecksOf(Some(check));
    TallyAppend([], Began);
    assert [] + [Began] == [Began];
    TallyChecks([Began], Some(check));
    TallyAppend(before, Decided);
    TallyAppend(log, Began);
    TallyChecks(log + [Began], second);
  }

  /** The verdict of a check, by the calls of the response it was made on. */
  lemma VerdictExactly(codec: Codec, terms: Terms, output: seq<Item>)
    ensures var check := Transform(codec, terms, output);
            && (check.Err? <==> RelayResult(check) == Invalid(if check.Err? then check.error else ""))
            && (RelayResult(check).NoCall? <==> check.Ok? && CallsAt(output, |output|) == {})
            && (RelayResult(check).Legacy? <==> check.Ok? && LegacyAt(codec, output, |output|) != {})
            && (RelayResult(check).Sound? <==> check.Ok? && CallsAt(output, |output|) != {} && LegacyAt(codec, output, |output|) == {})
  {
    hide Transform, LegacyAt, CallsAt;
    if Transform(codec, terms, output).Ok? {
      StatsExact(codec, terms, output);
      LegacyAreCalls(codec, output);
    }
  }

  lemma LegacyAreCalls(codec: Codec, output: seq<Item>)
    ensures LegacyAt(codec, output, |output|) <= CallsAt(output, |output|)
  {
    hide IsLegacy;
  }
}
