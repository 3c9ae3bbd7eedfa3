/**
 * The controller of cmd/watch.go: the generateAndReload pipeline and the
 * debounced event loop of the watch command.
 *
 * What the outside world answers is an input. A pass is given the container
 * listing, the verdict of `nginx -t`, the clock and the outcome of the
 * reload command; the loop is given the sequence of things its `select`
 * receives. The filesystem and the reloader are the state the passes share.
 */
module Watch {
  import opened Wrappers
  import opened Docker
  import opened ConfigWriter
  import opened Reload

  /** The stages of a pass, in the order they run. */
  datatype Op = ScanOp | GenerateOp | ValidateOp | ReloadOp

  /** What the world answers during one pass. */
  datatype PassInput = PassInput(listing: Listing, valid: bool, now: int, run: CommandRun)

  predicate Scannable(p: PassInput) {
    p.listing.Listed? ==> AllWellFormed(p.listing.containers)
  }

  datatype PassError =
    | ScanFailed(scan: ScanError)
    | GenerationFailed(generate: GenerateError)
    | ValidationFailed
    | ReloadError(reload: ReloadError)

  /** The shared state: the configuration files and the reloader's last reload time. */
  datatype World = World(files: Files, lastReload: Option<int>)

  /** One pass: the new state, the stages that ran and the error that ended it, if any. */
  datatype PassResult = PassResult(world: World, ops: seq<Op>, err: Option<PassError>)

  /** generateAndReload: scan, generate, and only when something changed validate and reload. */
  function PassOf(faults: Faults, g: GeneratorConfig, w: World, p: PassInput): PassResult
    requires Scannable(p)
  {
    match Scan(p.listing)
    case Err(e) => PassResult(w, [ScanOp], Some(ScanFailed(e)))
    case Ok(cs) => AfterGenerate(w, p, GenerateOf(faults, w.files, g, cs))
  }

  /** The rest of a pass once Generate has answered `gen`. */
  function AfterGenerate(w: World, p: PassInput, gen: (Files, Result<bool, GenerateError>)): PassResult {
    var (files', changed) := gen;
    var w1 := World(files', w.lastReload);
    if changed.Err? then PassResult(w1, [ScanOp, GenerateOp], Some(GenerationFailed(changed.error)))
    else if !changed.value then PassResult(w1, [ScanOp, GenerateOp], None)
    else if !p.valid then PassResult(w1, [ScanOp, GenerateOp, ValidateOp], Some(ValidationFailed))
    else
      var (last', err) := ReloadOf(w.lastReload, p.now, p.run);
      PassResult(World(files', last'), [ScanOp, GenerateOp, ValidateOp, ReloadOp],
        if err.Some? then Some(ReloadError(err.value)) else None)
  }

  /** generateAndReload (watch.go:122-155). */
  method GenerateAndReload(fs: FileSystem, reloader: Reloader, g: GeneratorConfig, p: PassInput)
    returns (err: Option<PassError>)
    requires Scannable(p)
    modifies fs, reloader
    ensures var r := PassOf(fs.faults, g, World(old(fs.files), old(reloader.lastReload)), p);
      && fs.files == r.world.files && reloader.lastReload == r.world.lastReload && err == r.err
  {
    var containers := ScanContainers(p.listing);
    if containers.Err? {
      return Some(ScanFailed(containers.error));
    }
    var changed := ConfigWriter.Generate(fs, g, containers.value);
    if changed.Err? {
      return Some(GenerationFailed(changed.error));
    }
    if !changed.value {
      return None;
    }
    if !p.valid {
      return Some(ValidationFailed);
    }
    var _, reloadErr := reloader.Reload(p.now, p.run);
    if reloadErr.Some? {
      return Some(ReloadError(reloadErr.value));
    }
    return None;
  }

  /** The stage each error stops at. */
  function StageOf(e: PassError): Op {
    match e
    case ScanFailed(_) => ScanOp
    case GenerationFailed(_) => GenerateOp
    case ValidationFailed => ValidateOp
    case ReloadError(_) => ReloadOp
  }

  /** All four stages, in order. */
  const STAGES: seq<Op> := [ScanOp, GenerateOp, ValidateOp, ReloadOp]

  /**
   * The pass is fail-fast: the stages that ran are a prefix of scan,
   * generate, validate, reload, and a failure is the last stage that ran.
   */
  lemma FailFast(faults: Faults, g: GeneratorConfig, w: World, p: PassInput)
    requires Scannable(p)
    ensures var r := PassOf(faults, g, w, p);
      && 1 <= |r.ops| <= 4 && r.ops == STAGES[..|r.ops|]
      && (r.err.Some? ==> r.ops[|r.ops| - 1] == StageOf(r.err.value))
  {
    assert STAGES[..1] == [ScanOp];
    match Scan(p.listing)
    case Err(_) =>
    case Ok(cs) => AfterGenerateFailFast(w, p, GenerateOf(faults, w.files, g, cs));
  }

  lemma AfterGenerateFailFast(w: World, p: PassInput, gen: (Files, Result<bool, GenerateError>))
    ensures var r := AfterGenerate(w, p, gen);
      && 2 <= |r.ops| <= 4 && r.ops == STAGES[..|r.ops|]
      && (r.err.Some? ==> r.ops[|r.ops| - 1] == StageOf(r.err.value))
  {
    assert STAGES[..2] == [ScanOp, GenerateOp];
    assert STAGES[..3] == [ScanOp, GenerateOp, ValidateOp] && STAGES[..4] == STAGES;
  }

  /** Only a pass that reaches the reload stage can change the last reload time. */
  lemma ReloadOnlyAtEnd(faults: Faults, g: GeneratorConfig, w: World, p: PassInput)
    requires Scannable(p)
    ensures var r := PassOf(faults, g, w, p);
      ReloadOp !in r.ops ==> r.world.lastReload == w.lastReload
    ensures var r := PassOf(faults, g, w, p);
      ReloadOp in r.ops <==> (
        && Scan(p.listing).Ok?
        && GenerateOf(faults, w.files, g, Scan(p.listing).value).1 == Ok(true)
        && p.valid)
  {
    match Scan(p.listing)
    case Err(_) =>
    case Ok(cs) => AfterGenerateReload(w, p, GenerateOf(faults, w.files, g, cs));
  }

  lemma AfterGenerateReload(w: World, p: PassInput, gen: (Files, Result<bool, GenerateError>))
    ensures var r := AfterGenerate(w, p, gen);
      && (ReloadOp !in r.ops ==> r.world.lastReload == w.lastReload)
      && (ReloadOp in r.ops <==> gen.1 == Ok(true) && p.valid)
  {
  }

  /** When Generate reports nothing changed, neither validate nor reload runs and the pass succeeds. */
  lemma UnchangedSkipsReload(faults: Faults, g: GeneratorConfig, w: World, p: PassInput)
    requires Scannable(p) && Scan(p.listing).Ok?
    requires GenerateOf(faults, w.files, g, Scan(p.listing).value).1 == Ok(false)
    ensures var r := PassOf(faults, g, w, p);
      r.ops == [ScanOp, GenerateOp] && r.err.None? && r.world.lastReload == w.lastReload
  {
  }

  /** A failed scan runs nothing else and changes nothing. */
  lemma ScanFailureChangesNothing(faults: Faults, g: GeneratorConfig, w: World, p: PassInput)
    requires p.listing.ListFailed?
    ensures PassOf(faults, g, w, p) == PassResult(w, [ScanOp], Some(ScanFailed(ListError)))
  {
  }

  // ---------------------------------------------------------------------
  // The event loop
  // ---------------------------------------------------------------------

  /**
   * What the `select` receives: a container event at a time, the debounce
   * timer firing (with what the world answers should a pass run), an error
   * on the event stream, or a shutdown signal.
   */
  datatype Input = Event(at: int) | TimerFired(pass: PassInput) | StreamError | Signal

  const DEBOUNCE_MS := 2000

  /** `pendingReload`, and when the debounce timer is set to fire (None: not armed). */
  datatype LoopState = LoopState(pending: bool, deadline: Option<int>)

  /** Before the first event: nothing pending, the drained timer not armed. */
  const IDLE := LoopState(false, None)

  /** What the loop does with one input. */
  datatype Action = Continue | RunPass(pass: PassInput) | Exit(failed: bool)

  /** One turn of the `select` loop (watch.go:86-117). */
  function Step(s: LoopState, input: Input): (LoopState, Action) {
    match input
    case Event(at) => (LoopState(true, Some(at + DEBOUNCE_MS)), Continue)
    case TimerFired(p) =>
      if s.pending then (LoopState(false, None), RunPass(p)) else (LoopState(false, None), Continue)
    case StreamError => (s, Exit(true))
    case Signal => (s, Exit(false))
  }

  /** How the command ends: still watching when the inputs run out, or returned with or without an error. */
  datatype Outcome = Watching | Failed | Stopped | InitialFailed(err: PassError)

  datatype Run = Run(world: World, state: LoopState, passes: seq<Option<PassError>>, outcome: Outcome)

  predicate AllScannable(inputs: seq<Input>) {
    forall i :: 0 <= i < |inputs| && inputs[i].TimerFired? ==> Scannable(inputs[i].pass)
  }

  predicate CanRun(input: Input) {
    input.TimerFired? ==> Scannable(input.pass)
  }

  /** One turn of the loop: the new world and state, the passes it ran (none or one), and how it ended the loop, if it did. */
  datatype Turn = Turn(world: World, state: LoopState, passes: seq<Option<PassError>>, exit: Option<Outcome>)

  function TurnOf(faults: Faults, g: GeneratorConfig, w: World, s: LoopState, input: Input): Turn
    requires CanRun(input)
  {
    var (s', action) := Step(s, input);
    match action
    case Exit(failed) => Turn(w, s', [], Some(if failed then Failed else Stopped))
    case Continue => Turn(w, s', [], None)
    case RunPass(p) =>
      var r := PassOf(faults, g, w, p);
      Turn(r.world, s', [r.err], None)
  }

  /** The loop over `inputs` from state `s`: the outcome of every pass it ran, in order, and how it ended. */
  function Loop(faults: Faults, g: GeneratorConfig, w: World, s: LoopState, inputs: seq<Input>): Run
    requires AllScannable(inputs)
    decreases |inputs|
  {
    if |inputs| == 0 then Run(w, s, [], Watching)
    else
      assert CanRun(inputs[0]);
      var t := TurnOf(faults, g, w, s, inputs[0]);
      if t.exit.Some? then Run(t.world, t.state, t.passes, t.exit.value)
      else
        var rest := Loop(faults, g, t.world, t.state, inputs[1..]);
        Run(rest.world, rest.state, t.passes + rest.passes, rest.outcome)
  }

  /** The watch command: the initial pass, then the loop; a failed initial pass ends it with that error. */
  function WatchOf(faults: Faults, g: GeneratorConfig, w: World, initial: PassInput, inputs: seq<Input>): Run
    requires Scannable(initial) && AllScannable(inputs)
  {
    var r := PassOf(faults, g, w, initial);
    if r.err.Some? then Run(r.world, IDLE, [r.err], InitialFailed(r.err.value))
    else
      var rest := Loop(faults, g, r.world, IDLE, inputs);
      Run(rest.world, rest.state, [r.err] + rest.passes, rest.outcome)
  }

  lemma AllScannableTail(inputs: seq<Input>, i: nat)
    requires AllScannable(inputs) && i <= |inputs|
    ensures AllScannable(inputs[i..])
  {
    forall k | 0 <= k < |inputs[i..]| && inputs[i..][k].TimerFired?
      ensures Scannable(inputs[i..][k].pass)
    {
      assert inputs[i..][k] == inputs[i + k];
    }
  }

  /** One turn of the `select` loop (watch.go:86-117) on the loop's state. */
  method HandleInput(fs: FileSystem, reloader: Reloader, g: GeneratorConfig, s: LoopState, input: Input)
    returns (s': LoopState, passes: seq<Option<PassError>>, exit: Option<Outcome>)
    requires CanRun(input)
    modifies fs, reloader
    ensures var t := TurnOf(fs.faults, g, World(old(fs.files), old(reloader.lastReload)), s, input);
      && fs.files == t.world.files && reloader.lastReload == t.world.lastReload
      && s' == t.state && passes == t.passes && exit == t.exit
  {
    var pendingReload, deadline := s.pending, s.deadline;
    passes, exit := [], None;
    if input.Event? {
      pendingReload := true;
      deadline := Some(input.at + DEBOUNCE_MS);
    } else if input.TimerFired? {
      deadline := None;
      if pendingReload {
        var e := GenerateAndReload(fs, reloader, g, input.pass);
        passes := [e];
        pendingReload := false;
      }
    } else if input.StreamError? {
      exit := Some(Failed);
    } else {
      exit := Some(Stopped);
    }
    s' := LoopState(pendingReload, deadline);
  }

  /** RunE of the watch command (watch.go:65-117), from the initial pass to the end of the inputs. */
  method RunWatch(fs: FileSystem, reloader: Reloader, g: GeneratorConfig, initial: PassInput, inputs: seq<Input>)
    returns (outcome: Outcome, passes: seq<Option<PassError>>)
    requires Scannable(initial) && AllScannable(inputs)
    modifies fs, reloader
    ensures var r := WatchOf(fs.faults, g, World(old(fs.files), old(reloader.lastReload)), initial, inputs);
      && fs.files == r.world.files && reloader.lastReload == r.world.lastReload
      && outcome == r.outcome && passes == r.passes
  {
    var err := GenerateAndReload(fs, reloader, g, initial);
    passes := [err];
    if err.Some? {
      return InitialFailed(err.value), passes;
    }
    ghost var total := Loop(fs.faults, g, World(fs.files, reloader.lastReload), IDLE, inputs);
    var state := IDLE;
    var i := 0;
    while i < |inputs|
      invariant 0 <= i <= |inputs|
      invariant AllScannable(inputs[i..])
      invariant var rest := Loop(fs.faults, g, World(fs.files, reloader.lastReload), state, inputs[i..]);
        && [err] + total.passes == passes + rest.passes
        && total.world == rest.world && total.outcome == rest.outcome
    {
      AllScannableTail(inputs, i + 1);
      assert inputs[i..][1..] == inputs[i + 1..];
      assert inputs[i..][0] == inputs[i];
      var ran, exit;
      state, ran, exit := HandleInput(fs, reloader, g, state, inputs[i]);
      passes := passes + ran;
      if exit.Some? {
        return exit.value, passes;
      }
      i := i + 1;
    }
    outcome := Watching;
  }

  // Properties of the loop

  /** A failed initial pass ends the command with its error before any input is read. */
  lemma InitialFailureEnds(faults: Faults, g: GeneratorConfig, w: World, initial: PassInput, inputs: seq<Input>)
    requires Scannable(initial) && AllScannable(inputs)
    ensures var p := PassOf(faults, g, w, initial);
      p.err.Some? ==> WatchOf(faults, g, w, initial, inputs) == Run(p.world, IDLE, [p.err], InitialFailed(p.err.value))
    ensures var p := PassOf(faults, g, w, initial);
      p.err.None? ==> WatchOf(faults, g, w, initial, inputs).passes[0] == None
  {
  }

  /** Every event marks a pass pending and re-arms the timer two seconds after it. */
  lemma EventRearms(s: LoopState, at: int)
    ensures Step(s, Event(at)) == (LoopState(true, Some(at + DEBOUNCE_MS)), Continue)
  {
  }

  /**
   * A timer firing while a pass is pending runs exactly one pass and clears
   * the pending mark, whatever the pass's outcome, and the loop goes on; a
   * timer firing with nothing pending does nothing.
   */
  lemma TimerFiring(faults: Faults, g: GeneratorConfig, w: World, s: LoopState, p: PassInput)
    requires Scannable(p)
    ensures var t := TurnOf(faults, g, w, s, TimerFired(p));
      s.pending ==> t == Turn(PassOf(faults, g, w, p).world, LoopState(false, None), [PassOf(faults, g, w, p).err], None)
    ensures !s.pending ==> TurnOf(faults, g, w, s, TimerFired(p)) == Turn(w, LoopState(false, None), [], None)
  {
  }

  /** An event-stream error ends the loop with an error, a signal without one; nothing after them is read. */
  lemma ExitInputs(faults: Faults, g: GeneratorConfig, w: World, s: LoopState, rest: seq<Input>)
    requires AllScannable(rest)
    ensures AllScannable([StreamError] + rest) && AllScannable([Signal] + rest)
    ensures Loop(faults, g, w, s, [StreamError] + rest) == Run(w, s, [], Failed)
    ensures Loop(faults, g, w, s, [Signal] + rest) == Run(w, s, [], Stopped)
  {
    assert AllScannable([StreamError] + rest) && AllScannable([Signal] + rest) by {
      forall i | 0 <= i < |rest| + 1
        ensures ([StreamError] + rest)[i].TimerFired? ==> Scannable(([StreamError] + rest)[i].pass)
        ensures ([Signal] + rest)[i].TimerFired? ==> Scannable(([Signal] + rest)[i].pass)
      {
        if i > 0 {
          assert ([StreamError] + rest)[i] == rest[i - 1] == ([Signal] + rest)[i];
        }
      }
    }
  }

  predicate AllEvents(inputs: seq<Input>) {
    forall i :: 0 <= i < |inputs| ==> inputs[i].Event?
  }

  /** A burst of events leaves a pass pending, the timer set two seconds after the last of them. */
  lemma {:induction false} Burst(faults: Faults, g: GeneratorConfig, w: World, s: LoopState, events: seq<Input>, rest: seq<Input>)
    requires |events| > 0 && AllEvents(events) && AllScannable(rest)
    ensures AllScannable(events + rest)
    ensures Loop(faults, g, w, s, events + rest)
      == Loop(faults, g, w, LoopState(true, Some(events[|events| - 1].at + DEBOUNCE_MS)), rest)
    decreases |events|
  {
    var all := events + rest;
    assert AllScannable(all) by {
      forall i | 0 <= i < |all| && all[i].TimerFired?
        ensures Scannable(all[i].pass)
      {
        assert i >= |events|;
        assert all[i] == rest[i - |events|];
      }
    }
    assert all[0] == events[0];
    if |events| == 1 {
      assert all[1..] == rest;
    } else {
      var events' := events[1..];
      assert all[1..] == events' + rest;
      assert events'[|events'| - 1] == events[|events| - 1];
      Burst(faults, g, w, LoopState(true, Some(events[0].at + DEBOUNCE_MS)), events', rest);
    }
  }

  /**
   * Debouncing: any burst of events followed by one timer firing runs
   * exactly one pass, and leaves nothing pending.
   */
  lemma BurstThenFire(faults: Faults, g: GeneratorConfig, w: World, s: LoopState, events: seq<Input>, p: PassInput)
    requires |events| > 0 && AllEvents(events) && Scannable(p)
    ensures AllScannable(events + [TimerFired(p)])
    ensures var r := PassOf(faults, g, w, p);
      Loop(faults, g, w, s, events + [TimerFired(p)]) == Run(r.world, LoopState(false, None), [r.err], Watching)
  {
    assert AllScannable([TimerFired(p)]);
    Burst(faults, g, w, s, events, [TimerFired(p)]);
    var r := PassOf(faults, g, w, p);
    assert [TimerFired(p)][1..] == [];
    assert [r.err] + [] == [r.err];
  }

  function Fires(inputs: seq<Input>): nat {
    if |inputs| == 0 then 0 else (if inputs[0].TimerFired? then 1 else 0) + Fires(inputs[1..])
  }

  function Events(inputs: seq<Input>): nat {
    if |inputs| == 0 then 0 else (if inputs[0].Event? then 1 else 0) + Events(inputs[1..])
  }

  /**
   * The loop never runs more passes than the timer fired, nor more than one
   * per event (plus one already pending): a pass needs an event since the
   * previous one.
   */
  lemma {:induction false} PassesBounded(faults: Faults, g: GeneratorConfig, w: World, s: LoopState, inputs: seq<Input>)
    requires AllScannable(inputs)
    ensures |Loop(faults, g, w, s, inputs).passes| <= Fires(inputs)
    ensures |Loop(faults, g, w, s, inputs).passes| <= Events(inputs) + (if s.pending then 1 else 0)
    decreases |inputs|
  {
    if |inputs| > 0 {
      AllScannableTail(inputs, 1);
      var t := TurnOf(faults, g, w, s, inputs[0]);
      if t.exit.None? {
        PassesBounded(faults, g, t.world, t.state, inputs[1..]);
      }
    }
  }
}
