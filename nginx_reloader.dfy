/**
 * The reload throttle of nginx/reloader.go. Time is an integer number of
 * milliseconds supplied by the caller, and running the reload command is
 * an input: whether it succeeded, what it printed and how long it took.
 */
module Reload {
  import opened Wrappers

  /** The minimum spacing between reloads, and the fixed sleep when a reload comes too soon. */
  const THROTTLE_MS := 1000

  /** The answer of `sh -c <reload command>`. */
  datatype CommandRun = CommandRun(succeeded: bool, output: string, duration: nat)

  datatype ReloadError = ReloadFailed(output: string)

  /**
   * How long Reload sleeps before running the command. The zero time of a
   * fresh reloader is None: the elapsed time since it is never under a
   * second.
   */
  function Delay(last: Option<int>, now: int): nat {
    if last.Some? && now - last.value < THROTTLE_MS then THROTTLE_MS else 0
  }

  /** The last reload time and the error after one call of Reload started at `now`. */
  function ReloadOf(last: Option<int>, now: int, run: CommandRun): (Option<int>, Option<ReloadError>) {
    var started := now + Delay(last, now);
    if run.succeeded then (Some(started + run.duration), None)
    else (last, Some(ReloadFailed(run.output)))
  }

  class Reloader {
    const reloadCmd: string
    var lastReload: Option<int>

    /** NewReloader (reloader.go:19-24): the last reload time starts as the zero time. */
    constructor(reloadCmd: string)
      ensures this.reloadCmd == reloadCmd && lastReload == None
    {
      this.reloadCmd := reloadCmd;
      lastReload := None;
    }

    /**
     * Reload (reloader.go:28-49) called at time `now`: returns how long it
     * slept and the error, if the command failed.
     */
    method Reload(now: int, run: CommandRun) returns (slept: nat, err: Option<ReloadError>)
      modifies this
      ensures slept == Delay(old(lastReload), now)
      ensures (lastReload, err) == ReloadOf(old(lastReload), now, run)
    {
      slept := 0;
      if lastReload.Some? && now - lastReload.value < THROTTLE_MS {
        slept := THROTTLE_MS;
      }
      if !run.succeeded {
        return slept, Some(ReloadFailed(run.output));
      }
      lastReload := Some(now + slept + run.duration);
      err := None;
    }
  }

  /**
   * The throttle: a reload within a second of the last sleeps exactly one
   * second, any other runs at once; the first reload of a fresh reloader
   * never waits.
   */
  lemma DelayIff(last: Option<int>, now: int)
    ensures Delay(last, now) == THROTTLE_MS <==> (last.Some? && now - last.value < THROTTLE_MS)
    ensures Delay(last, now) == 0 <==> !(last.Some? && now - last.value < THROTTLE_MS)
    ensures Delay(None, now) == 0
  {
  }

  /**
   * On success the last reload time becomes the completion time of the
   * command; on failure the error carries the command output and the last
   * reload time is kept.
   */
  lemma ReloadOutcome(last: Option<int>, now: int, run: CommandRun)
    ensures var (last', err) := ReloadOf(last, now, run);
      && (run.succeeded ==> err.None? && last' == Some(now + Delay(last, now) + run.duration))
      && (!run.succeeded ==> err == Some(ReloadFailed(run.output)) && last' == last)
  {
  }

  /**
   * With a clock that does not run backwards, a command never starts less
   * than a second after the last successful reload finished.
   */
  lemma {:induction false} ReloadSpacing(last: int, now: int)
    requires now >= last
    ensures now + Delay(Some(last), now) >= last + THROTTLE_MS
  {
    if now - last < THROTTLE_MS {
      assert Delay(Some(last), now) == THROTTLE_MS;
    }
  }

  /**
   * The sleep is a fixed second, not the rest of the second: a reload one
   * millisecond short of the spacing waits a whole second.
   */
  lemma FixedSleep(last: int)
    ensures Delay(Some(last), last + THROTTLE_MS - 1) == THROTTLE_MS
    ensures Delay(Some(last), last + THROTTLE_MS) == 0
  {
  }

  /**
   * The last reload time only moves forward (with a clock that does not run
   * backwards) and, once set, stays set.
   */
  lemma ReloadMonotone(last: Option<int>, now: int, run: CommandRun)
    requires last.Some? ==> now >= last.value
    ensures var last' := ReloadOf(last, now, run).0;
      && (last.Some? ==> last'.Some? && last'.value >= last.value)
      && (last'.None? <==> last.None? && !run.succeeded)
      && (last'.Some? ==> last'.value >= now || last' == last)
  {
  }
}
