/**
 One training job of the durable agent (scripts/pair-notebook-agent.py): the agent, the detached runner and the
 private supervisor share a directory of files and two OS locks; any of them may crash between any two steps,
 which frees its locks and keeps the files.

 Each value of a process below is a point between two of its visible actions: a file test, an atomic file write,
 an attempt to take a lock, starting a process, releasing locks. The recovery delay and the poll interval are
 dropped, so every wait may be arbitrarily short.
 */
module TrainingJob {
  datatype Owner = Nobody | AgentOwns | RunnerOwns | SupervisorOwns

  /** `ensure_job`; the agent lock admits one agent at a time, a crash brings a new one. */
  datatype Agent =
    | Outside
    | SawNoManifest
    | ManifestWritten
    | SpawnFailed
    | SawNoResult
    | HoldsRun
    | HoldsBoth
    | MayInterrupt
    | WroteInterrupted

  /** `run_job`; in Failing the runner still waits for a supervisor it started. */
  datatype Runner =
    | NotSpawned
    | Spawned
    | RunLocked
    | Preparing
    | Supervising
    | Failing
    | MayReport
    | Reported
    | RunnerGone

  /** `supervise_job`. */
  datatype Supervisor =
    | NotStarted
    | Started
    | ExecutionLocked
    | MayTrain
    | Training
    | Cleaning
    | ExecutionWritten
    | SupervisorGone

  datatype Job = Job(manifest: bool, cancel: bool, result: bool, execution: bool, runLock: Owner, executionLock: Owner,
                     agent: Agent, runner: Runner, supervisor: Supervisor,
                     runners: nat, supervisors: nat, trainings: nat, results: nat)

  const Start := Job(false, false, false, false, Nobody, Nobody, Outside, NotSpawned, NotStarted, 0, 0, 0, 0)

  datatype Step =
    | TestManifest
    | WriteManifest
    | SpawnRunner(ok: bool)
    | WriteSpawnFailure
    | TryRunLock
    | TryExecutionLock
    | RetestResult
    | WriteInterrupted
    | ReleaseAgentLocks
    | RequestCancel
    | AgentCrash
    | RunnerLocks
    | RunnerTestsResult
    | RunnerCancels
    | RunnerFails
    | StartSupervisor
    | SupervisorSeenGone
    | WriteResult
    | RunnerEnds
    | RunnerCrash
    | SupervisorLocks
    | SupervisorTests(disconnected: bool)
    | StartTraining
    | TrainingEnds
    | WriteExecution
    | SupervisorEnds
    | SupervisorCrash

  function WithResult(j: Job): Job { j.(result := true, results := j.results + 1) }

  function Free(o: Owner, mine: Owner): Owner { if o == mine then Nobody else o }

  predicate Enabled(j: Job, s: Step) {
    match s
    case TestManifest => j.agent.Outside?
    case WriteManifest => j.agent.SawNoManifest?
    case SpawnRunner(_) => j.agent.ManifestWritten?
    case WriteSpawnFailure => j.agent.SpawnFailed?
    case TryRunLock => j.agent.SawNoResult?
    case TryExecutionLock => j.agent.HoldsRun?
    case RetestResult => j.agent.HoldsBoth?
    case WriteInterrupted => j.agent.MayInterrupt?
    case ReleaseAgentLocks => j.agent.HoldsRun? || j.agent.HoldsBoth? || j.agent.WroteInterrupted?
    case RequestCancel => true
    case AgentCrash => true
    case RunnerLocks => j.runner.Spawned?
    case RunnerTestsResult => j.runner.RunLocked?
    case RunnerCancels => j.runner.Preparing? && j.cancel
    case RunnerFails => j.runner.Preparing? || j.runner.Supervising?
    case StartSupervisor => j.runner.Preparing?
    case SupervisorSeenGone => (j.runner.Supervising? || j.runner.Failing?) && j.supervisor.SupervisorGone?
    case WriteResult => j.runner.MayReport?
    case RunnerEnds => j.runner.Reported? || j.runner.Failing? || j.runner.MayReport?
    case RunnerCrash => !j.runner.NotSpawned?
    case SupervisorLocks => j.supervisor.Started?
    case SupervisorTests(_) => j.supervisor.ExecutionLocked?
    case StartTraining => j.supervisor.MayTrain?
    case TrainingEnds => j.supervisor.Training?
    case WriteExecution => j.supervisor.Cleaning?
    case SupervisorEnds => j.supervisor.ExecutionWritten? || j.supervisor.Cleaning? || j.supervisor.MayTrain?
    case SupervisorCrash => !j.supervisor.NotStarted?
  }

  function RunnerStops(j: Job): Job { j.(runner := RunnerGone, runLock := Free(j.runLock, RunnerOwns)) }

  function SupervisorStops(j: Job): Job {
    j.(supervisor := SupervisorGone, executionLock := Free(j.executionLock, SupervisorOwns))
  }

  function AgentStops(j: Job): Job {
    j.(agent := Outside, runLock := Free(j.runLock, AgentOwns), executionLock := Free(j.executionLock, AgentOwns))
  }

  function Next(j: Job, s: Step): Job
    requires Enabled(j, s)
  {
    match s
    // The agent.
    case TestManifest =>
      if !j.manifest then j.(agent := SawNoManifest) else if !j.result then j.(agent := SawNoResult) else j
    case WriteManifest => j.(manifest := true, agent := ManifestWritten)
    case SpawnRunner(ok) =>
      if ok then j.(runner := Spawned, runners := j.runners + 1, agent := Outside) else j.(agent := SpawnFailed)
    case WriteSpawnFailure => WithResult(j).(agent := Outside)
    case TryRunLock => if j.runLock.Nobody? then j.(runLock := AgentOwns, agent := HoldsRun) else j.(agent := Outside)
    case TryExecutionLock =>
      if j.executionLock.Nobody? then j.(executionLock := AgentOwns, agent := HoldsBoth) else AgentStops(j)
    case RetestResult => if !j.result then j.(agent := MayInterrupt) else AgentStops(j)
    case WriteInterrupted => WithResult(j).(agent := Agent.WroteInterrupted)
    case ReleaseAgentLocks => AgentStops(j)
    case RequestCancel => j.(cancel := true)
    case AgentCrash => AgentStops(j)
    // The runner.
    case RunnerLocks => if j.runLock.Nobody? then j.(runLock := RunnerOwns, runner := RunLocked)
      else j.(runner := RunnerGone)
    case RunnerTestsResult => if j.result then RunnerStops(j) else j.(runner := Preparing)
    case RunnerCancels => j.(runner := Runner.MayReport)
    case RunnerFails => if j.runner.Preparing? then j.(runner := Runner.MayReport) else j.(runner := Failing)
    case StartSupervisor => j.(supervisor := Started, supervisors := j.supervisors + 1, runner := Supervising)
    case SupervisorSeenGone => j.(runner := Runner.MayReport)
    case WriteResult => WithResult(j).(runner := Reported)
    case RunnerEnds => RunnerStops(j)
    case RunnerCrash => RunnerStops(j)
    // The supervisor.
    case SupervisorLocks =>
      if j.executionLock.Nobody? then j.(executionLock := SupervisorOwns, supervisor := ExecutionLocked)
      else j.(supervisor := SupervisorGone)
    case SupervisorTests(disconnected) =>
      if j.result || j.cancel || disconnected then j.(supervisor := Cleaning) else j.(supervisor := MayTrain)
    case StartTraining => j.(supervisor := Supervisor.Training, trainings := j.trainings + 1)
    case TrainingEnds => j.(supervisor := Cleaning)
    case WriteExecution => j.(execution := true, supervisor := ExecutionWritten)
    case SupervisorEnds => SupervisorStops(j)
    case SupervisorCrash => SupervisorStops(j)
  }

  predicate IsRun(j: Job, steps: seq<Step>)
    decreases |steps|
  {
    steps == [] || (Enabled(j, steps[0]) && IsRun(Next(j, steps[0]), steps[1..]))
  }

  function After(j: Job, steps: seq<Step>): Job
    requires IsRun(j, steps)
    decreases |steps|
  {
    if steps == [] then j else After(Next(j, steps[0]), steps[1..])
  }

  // ----- What every step keeps -----

  /** Who is where holds which lock. */
  ghost predicate LocksOK(j: Job) {
    && (j.runLock.RunnerOwns? <==> !(j.runner.NotSpawned? || j.runner.Spawned? || j.runner.RunnerGone?))
    && (j.executionLock.SupervisorOwns? <==>
          !(j.supervisor.NotStarted? || j.supervisor.Started? || j.supervisor.SupervisorGone?))
    && (j.runLock.AgentOwns? <==>
          j.agent.HoldsRun? || j.agent.HoldsBoth? || j.agent.MayInterrupt? || j.agent.WroteInterrupted?)
    && (j.executionLock.AgentOwns? <==> j.agent.HoldsBoth? || j.agent.MayInterrupt? || j.agent.WroteInterrupted?)
    && !j.runLock.SupervisorOwns? && !j.executionLock.RunnerOwns?
  }

  /** The manifest makes the spawn happen at most once, and each process starts the next at most once. */
  ghost predicate SpawnsOK(j: Job) {
    && (!j.manifest ==> !j.agent.ManifestWritten? && !j.agent.SpawnFailed? && !j.agent.SawNoResult?
                        && j.runLock != AgentOwns)
    && (!j.manifest || j.agent.ManifestWritten? || j.agent.SpawnFailed? ==> j.runner.NotSpawned? && !j.result)
    && (j.agent.SawNoManifest? ==> !j.manifest)
    && (j.runner.NotSpawned? ==> j.runners == 0 && j.supervisors == 0) && j.runners <= 1
    && (j.runner.Spawned? || j.runner.RunLocked? || j.runner.Preparing? ==> j.supervisor.NotStarted?)
    && (j.runner.Supervising? || j.runner.Failing? ==> !j.supervisor.NotStarted?)
    && (j.supervisor.NotStarted? <==> j.supervisors == 0) && j.supervisors <= 1
    && (j.supervisor.NotStarted? || j.supervisor.Started? || j.supervisor.ExecutionLocked? || j.supervisor.MayTrain?
        ==> j.trainings == 0)
    && j.trainings <= 1
  }

  /** Whoever is about to write the result or to start training knows there is no result yet. */
  ghost predicate ResultOK(j: Job) {
    && (j.results == if j.result then 1 else 0)
    && (j.runner.Preparing? || j.runner.Supervising? || j.runner.Failing? || j.runner.MayReport? ==> !j.result)
    && (j.runner.MayReport? ==> j.supervisor.NotStarted? || j.supervisor.SupervisorGone?)
    && (j.runner.Reported? ==> j.supervisor.NotStarted? || j.supervisor.SupervisorGone?)
    && (j.agent.MayInterrupt? ==> !j.result) && (j.agent.WroteInterrupted? ==> j.result)
    && (j.supervisor.MayTrain? || j.supervisor.Training? ==> !j.result)
  }

  ghost predicate Inv(j: Job) { LocksOK(j) && SpawnsOK(j) && ResultOK(j) }

  lemma AgentLaunchKeeps(j: Job, s: Step)
    requires Inv(j) && Enabled(j, s)
    requires s.TestManifest? || s.WriteManifest? || s.SpawnRunner? || s.WriteSpawnFailure? || s.RequestCancel?
    ensures Inv(Next(j, s))
  {
  }

  lemma AgentRecoveryKeeps(j: Job, s: Step)
    requires Inv(j) && Enabled(j, s)
    requires s.TryRunLock? || s.TryExecutionLock? || s.RetestResult?
    ensures Inv(Next(j, s))
  {
  }

  lemma AgentReleaseKeeps(j: Job, s: Step)
    requires Inv(j) && Enabled(j, s)
    requires s.WriteInterrupted? || s.ReleaseAgentLocks? || s.AgentCrash?
    ensures Inv(Next(j, s))
  {
  }

  lemma RunnerStartKeeps(j: Job, s: Step)
    requires Inv(j) && Enabled(j, s)
    requires s.RunnerLocks? || s.RunnerTestsResult? || s.RunnerCancels? || s.StartSupervisor?
    ensures Inv(Next(j, s))
  {
  }

  lemma RunnerEndKeeps(j: Job, s: Step)
    requires Inv(j) && Enabled(j, s)
    requires s.RunnerFails? || s.SupervisorSeenGone? || s.WriteResult? || s.RunnerEnds? || s.RunnerCrash?
    ensures Inv(Next(j, s))
  {
  }

  lemma SupervisorKeeps(j: Job, s: Step)
    requires Inv(j) && Enabled(j, s)
    requires s.SupervisorLocks? || s.SupervisorTests? || s.StartTraining? || s.TrainingEnds? || s.WriteExecution?
             || s.SupervisorEnds? || s.SupervisorCrash?
    ensures Inv(Next(j, s))
  {
  }

  lemma StepKeeps(j: Job, s: Step)
    requires Inv(j) && Enabled(j, s)
    ensures Inv(Next(j, s))
  {
    if s.TestManifest? || s.WriteManifest? || s.SpawnRunner? || s.WriteSpawnFailure? || s.RequestCancel? {
      AgentLaunchKeeps(j, s);
    } else if s.TryRunLock? || s.TryExecutionLock? || s.RetestResult? {
      AgentRecoveryKeeps(j, s);
    } else if s.WriteInterrupted? || s.ReleaseAgentLocks? || s.AgentCrash? {
      AgentReleaseKeeps(j, s);
    } else if s.RunnerLocks? || s.RunnerTestsResult? || s.RunnerCancels? || s.StartSupervisor? {
      RunnerStartKeeps(j, s);
    } else if s.RunnerFails? || s.SupervisorSeenGone? || s.WriteResult? || s.RunnerEnds? || s.RunnerCrash? {
      RunnerEndKeeps(j, s);
    } else {
      SupervisorKeeps(j, s);
    }
  }

  lemma {:induction false} RunKeeps(j: Job, steps: seq<Step>)
    requires Inv(j) && IsRun(j, steps)
    ensures Inv(After(j, steps))
    decreases |steps|
  {
    if steps != [] {
      StepKeeps(j, steps[0]);
      RunKeeps(Next(j, steps[0]), steps[1..]);
    }
  }

  // ----- Main results -----

  /** Training starts at most once, and every process is started at most once. */
  lemma TrainingStartsAtMostOnce(steps: seq<Step>)
    requires IsRun(Start, steps)
    ensures After(Start, steps).trainings <= 1
    ensures After(Start, steps).runners <= 1 && After(Start, steps).supervisors <= 1
  {
    RunKeeps(Start, steps);
  }

  /** Once the result exists no further run starts training or writes the result again. */
  lemma ResultIsFinal(steps: seq<Step>, later: seq<Step>)
    requires IsRun(Start, steps) && After(Start, steps).result && IsRun(After(Start, steps), later)
    ensures var j, k := After(Start, steps), After(After(Start, steps), later);
      k.result && k.results == 1 && k.trainings == j.trainings
    ensures forall s :: Enabled(After(Start, steps), s) ==>
      s != StartTraining && s != WriteResult && s != WriteInterrupted && s != WriteSpawnFailure
  {
    RunKeeps(Start, steps);
    ResultStays(After(Start, steps), later);
  }

  lemma {:induction false} ResultStays(j: Job, later: seq<Step>)
    requires Inv(j) && j.result && IsRun(j, later)
    ensures var k := After(j, later); k.result && k.results == 1 && k.trainings == j.trainings
    decreases |later|
  {
    if later != [] {
      StepKeeps(j, later[0]);
      ResultStays(Next(j, later[0]), later[1..]);
    }
  }

  /** The result is there, and neither process is past the test that would make it stop. */
  predicate IsIdle(j: Job) {
    && j.result
    && (j.runner.NotSpawned? || j.runner.Spawned? || j.runner.RunLocked? || j.runner.RunnerGone?)
    && !j.supervisor.MayTrain? && !j.supervisor.Training?
  }

  lemma IdleStep(j: Job, s: Step)
    requires Inv(j) && IsIdle(j) && Enabled(j, s)
    ensures IsIdle(Next(j, s)) && Next(j, s).trainings == j.trainings
  {
  }

  lemma {:induction false} StaysIdle(j: Job, later: seq<Step>)
    requires Inv(j) && IsIdle(j) && IsRun(j, later)
    ensures IsIdle(After(j, later)) && After(j, later).trainings == j.trainings
    decreases |later|
  {
    if later != [] {
      StepKeeps(j, later[0]);
      IdleStep(j, later[0]);
      StaysIdle(Next(j, later[0]), later[1..]);
    }
  }

  /**
   A job reported as interrupted has neither a live runner at work nor a live supervisor, and whatever happens
   later, its runner never gets past finding the result and its training never starts.
   */
  lemma InterruptedMeansNobodyWorks(steps: seq<Step>, later: seq<Step>)
    requires IsRun(Start, steps) && Enabled(After(Start, steps), WriteInterrupted)
    requires IsRun(Next(After(Start, steps), WriteInterrupted), later)
    ensures var j := After(Start, steps); (
      && (j.runner.NotSpawned? || j.runner.Spawned? || j.runner.RunnerGone?)
      && (j.supervisor.NotStarted? || j.supervisor.Started? || j.supervisor.SupervisorGone?)
      && !j.result)
    ensures var j, k := After(Start, steps), After(Next(After(Start, steps), WriteInterrupted), later); (
      IsIdle(k) && k.trainings == j.trainings)
  {
    RunKeeps(Start, steps);
    var j := After(Start, steps);
    StepKeeps(j, WriteInterrupted);
    StaysIdle(Next(j, WriteInterrupted), later);
  }

  // ----- Getting on -----

  /** Training may start right after the supervisor's test exactly if nothing spoke against it. */
  lemma TestDecides(steps: seq<Step>, disconnected: bool)
    requires IsRun(Start, steps) && After(Start, steps).supervisor.ExecutionLocked?
    ensures var j := After(Start, steps);
      && Enabled(j, SupervisorTests(disconnected))
      && Enabled(Next(j, SupervisorTests(disconnected)), StartTraining) == (!j.result && !j.cancel && !disconnected)
  {
  }

  /** A cancellation that is there before the supervisor has tested keeps every later run from training. */
  lemma {:induction false} CancelledNeverTrains(j: Job, later: seq<Step>)
    requires j.cancel && !j.supervisor.MayTrain? && IsRun(j, later)
    ensures After(j, later).trainings == j.trainings && !After(j, later).supervisor.MayTrain?
    decreases |later|
  {
    if later != [] {
      CancelledNeverTrains(Next(j, later[0]), later[1..]);
    }
  }

  /**
   A step of an undisturbed run: no cancellation, no failure, no crash of runner or supervisor, the agent crashes at
   most after it has started the runner, and it tries the run lock only once the runner has been at it. The source
   waits ten seconds before it does.
   */
  predicate IsUndisturbed(j: Job, s: Step) {
    match s
    case RequestCancel | RunnerCrash | SupervisorCrash | RunnerFails | RunnerCancels | WriteSpawnFailure => false
    case AgentCrash => !j.runner.NotSpawned?
    case SpawnRunner(ok) => ok
    case SupervisorTests(disconnected) => !disconnected
    case TryRunLock => !j.runner.Spawned?
    case RunnerEnds => j.runner.Reported?
    case SupervisorEnds => j.supervisor.ExecutionWritten?
    case _ => true
  }

  predicate IsUndisturbedRun(j: Job, steps: seq<Step>)
    requires IsRun(j, steps)
    decreases |steps|
  {
    steps == [] || (IsUndisturbed(j, steps[0]) && IsUndisturbedRun(Next(j, steps[0]), steps[1..]))
  }

  /** The launch by the agent, and every step of runner and supervisor. */
  predicate IsWork(j: Job, s: Step) {
    match s
    case TestManifest => !j.manifest
    case WriteManifest | SpawnRunner(_) => true
    case RunnerLocks | RunnerTestsResult | StartSupervisor | SupervisorSeenGone | WriteResult | RunnerEnds => true
    case SupervisorLocks | SupervisorTests(_) | StartTraining | TrainingEnds | WriteExecution | SupervisorEnds => true
    case _ => false
  }

  function WorkIn(j: Job, steps: seq<Step>): nat
    requires IsRun(j, steps)
    decreases |steps|
  {
    if steps == [] then 0
    else (if IsWork(j, steps[0]) then 1 else 0) + WorkIn(Next(j, steps[0]), steps[1..])
  }

  const TotalWork: nat := 15

  /** How much work is left. */
  function WorkLeft(j: Job): nat {
    match j.runner
    case NotSpawned => if j.agent.ManifestWritten? then 13 else if j.agent.SawNoManifest? then 14 else TotalWork
    case Spawned => 12
    case RunLocked => 11
    case Preparing => 10
    case Supervising => WorkOfSupervisor(j.supervisor)
    case Failing => 0
    case MayReport => 2
    case Reported => 1
    case RunnerGone => 0
  }

  function WorkOfSupervisor(s: Supervisor): nat {
    match s
    case NotStarted => 9
    case Started => 9
    case ExecutionLocked => 8
    case MayTrain => 7
    case Training => 6
    case Cleaning => 5
    case ExecutionWritten => 4
    case SupervisorGone => 3
  }

  predicate HasTrained(s: Supervisor) { s.Training? || s.Cleaning? || s.ExecutionWritten? || s.SupervisorGone? }

  /** Where an undisturbed job can be: what is done is done in order, and the agent holds no lock before the result. */
  ghost predicate OnTheWay(j: Job) {
    && Inv(j) && !j.cancel && !j.agent.SpawnFailed? && !j.runner.Failing?
    && (j.runner.NotSpawned? ==>
          if j.manifest then j.agent.ManifestWritten? else j.agent.Outside? || j.agent.SawNoManifest?)
    && (j.runner.Spawned? || !j.result ==> j.runLock != AgentOwns)
    && (j.result <==> j.runner.Reported? || j.runner.RunnerGone?)
    && (HasTrained(j.supervisor) ==> j.trainings == 1)
    && (j.runner.MayReport? || j.result ==> j.supervisor.SupervisorGone?)
  }

  lemma UndisturbedAgentKeeps(j: Job, s: Step)
    requires OnTheWay(j) && Enabled(j, s) && IsUndisturbed(j, s) && Inv(Next(j, s))
    requires s.TestManifest? || s.WriteManifest? || s.SpawnRunner? || s.WriteSpawnFailure? || s.TryRunLock?
             || s.TryExecutionLock? || s.RetestResult? || s.WriteInterrupted? || s.ReleaseAgentLocks?
             || s.RequestCancel? || s.AgentCrash?
    ensures OnTheWay(Next(j, s)) && WorkLeft(Next(j, s)) + (if IsWork(j, s) then 1 else 0) == WorkLeft(j)
  {
  }

  lemma UndisturbedRunnerKeeps(j: Job, s: Step)
    requires OnTheWay(j) && Enabled(j, s) && IsUndisturbed(j, s) && Inv(Next(j, s))
    requires s.RunnerLocks? || s.RunnerTestsResult? || s.RunnerCancels? || s.RunnerFails? || s.StartSupervisor?
             || s.SupervisorSeenGone? || s.WriteResult? || s.RunnerEnds? || s.RunnerCrash?
    ensures OnTheWay(Next(j, s)) && WorkLeft(Next(j, s)) + 1 == WorkLeft(j)
  {
  }

  lemma UndisturbedSupervisorKeeps(j: Job, s: Step)
    requires OnTheWay(j) && Enabled(j, s) && IsUndisturbed(j, s) && Inv(Next(j, s))
    requires s.SupervisorLocks? || s.SupervisorTests? || s.StartTraining? || s.TrainingEnds? || s.WriteExecution?
             || s.SupervisorEnds? || s.SupervisorCrash?
    ensures OnTheWay(Next(j, s)) && WorkLeft(Next(j, s)) + 1 == WorkLeft(j)
  {
  }

  lemma UndisturbedStepKeeps(j: Job, s: Step)
    requires OnTheWay(j) && Enabled(j, s) && IsUndisturbed(j, s)
    ensures OnTheWay(Next(j, s)) && WorkLeft(Next(j, s)) + (if IsWork(j, s) then 1 else 0) == WorkLeft(j)
  {
    StepKeeps(j, s);
    if s.TestManifest? || s.WriteManifest? || s.SpawnRunner? || s.WriteSpawnFailure? || s.TryRunLock?
       || s.TryExecutionLock? || s.RetestResult? || s.WriteInterrupted? || s.ReleaseAgentLocks?
       || s.RequestCancel? || s.AgentCrash? {
      UndisturbedAgentKeeps(j, s);
    } else if s.RunnerLocks? || s.RunnerTestsResult? || s.RunnerCancels? || s.RunnerFails? || s.StartSupervisor?
              || s.SupervisorSeenGone? || s.WriteResult? || s.RunnerEnds? || s.RunnerCrash? {
      UndisturbedRunnerKeeps(j, s);
    } else {
      UndisturbedSupervisorKeeps(j, s);
    }
  }

  lemma {:induction false} UndisturbedRunKeeps(j: Job, steps: seq<Step>)
    requires OnTheWay(j) && IsRun(j, steps) && IsUndisturbedRun(j, steps)
    ensures OnTheWay(After(j, steps)) && WorkLeft(After(j, steps)) + WorkIn(j, steps) == WorkLeft(j)
    decreases |steps|
  {
    if steps != [] {
      UndisturbedStepKeeps(j, steps[0]);
      UndisturbedRunKeeps(Next(j, steps[0]), steps[1..]);
    }
  }

  /** The step of launch, runner or supervisor that is next. */
  function NextWork(j: Job): Step {
    match j.runner
    case NotSpawned =>
      if j.agent.ManifestWritten? then SpawnRunner(true) else if j.agent.SawNoManifest? then WriteManifest
      else TestManifest
    case Spawned => RunnerLocks
    case RunLocked => RunnerTestsResult
    case Preparing => StartSupervisor
    case Supervising => NextOfSupervisor(j.supervisor)
    case MayReport => WriteResult
    case _ => RunnerEnds
  }

  function NextOfSupervisor(s: Supervisor): Step {
    match s
    case NotStarted | Started => SupervisorLocks
    case ExecutionLocked => SupervisorTests(false)
    case MayTrain => StartTraining
    case Training => TrainingEnds
    case Cleaning => WriteExecution
    case ExecutionWritten => SupervisorEnds
    case SupervisorGone => SupervisorSeenGone
  }

  /**
   An undisturbed run is never stuck before all work is done, whatever the agent does, and the work there is to do is
   limited; with all but the last step of it done the job has trained once and its result is written.
   */
  lemma UndisturbedJobTrains(steps: seq<Step>)
    requires IsRun(Start, steps) && IsUndisturbedRun(Start, steps)
    ensures var j := After(Start, steps);
      && WorkIn(Start, steps) <= TotalWork
      && (WorkIn(Start, steps) < TotalWork ==> (
            Enabled(j, NextWork(j)) && IsUndisturbed(j, NextWork(j)) && IsWork(j, NextWork(j))))
      && (WorkIn(Start, steps) >= TotalWork - 1 ==> j.trainings == 1 && j.result && j.results == 1)
  {
    UndisturbedRunKeeps(Start, steps);
  }

  lemma StartsWith(j: Job, s: Step, rest: seq<Step>) returns (steps: seq<Step>)
    requires Enabled(j, s) && IsRun(Next(j, s), rest)
    ensures steps == [s] + rest && IsRun(j, steps) && After(j, steps) == After(Next(j, s), rest)
  {
    steps := [s] + rest;
    assert steps[1..] == rest;
  }

  lemma StartsWithTwo(j: Job, s: Step, t: Step, rest: seq<Step>) returns (steps: seq<Step>)
    requires Enabled(j, s) && Enabled(Next(j, s), t) && IsRun(Next(Next(j, s), t), rest)
    ensures steps == [s, t] + rest && IsRun(j, steps) && After(j, steps) == After(Next(Next(j, s), t), rest)
  {
    steps := StartsWith(Next(j, s), t, rest);
    steps := StartsWith(j, s, steps);
  }

  /** The job with its runner launched. */
  const Launched := Start.(manifest := true, runner := Spawned, runners := 1)

  /** Nobody is at work on a job without result: both locks are free and the agent may look at it. */
  predicate IsAbandoned(j: Job) {
    j.manifest && !j.result && j.agent.Outside? && j.runLock.Nobody? && j.executionLock.Nobody?
  }

  /** The agent looked, found the manifest but no result, and took both locks. */
  function Recovering(j: Job): Job {
    j.(agent := MayInterrupt, runLock := AgentOwns, executionLock := AgentOwns)
  }

  lemma LaunchStarts(rest: seq<Step>) returns (steps: seq<Step>)
    requires IsRun(Launched, rest)
    ensures steps == [TestManifest, WriteManifest, SpawnRunner(true)] + rest
    ensures IsRun(Start, steps) && After(Start, steps) == After(Launched, rest)
  {
    var j1 := Next(Start, TestManifest);
    var j2 := Next(j1, WriteManifest);
    steps := StartsWith(j2, SpawnRunner(true), rest);
    steps := StartsWith(j1, WriteManifest, steps);
    steps := StartsWith(Start, TestManifest, steps);
  }

  lemma RecoveryStarts(j: Job, rest: seq<Step>) returns (steps: seq<Step>)
    requires IsAbandoned(j) && IsRun(Recovering(j), rest)
    ensures steps == [TestManifest, TryRunLock, TryExecutionLock, RetestResult] + rest
    ensures IsRun(j, steps) && After(j, steps) == After(Recovering(j), rest)
  {
    var j1 := Next(j, TestManifest);
    var j2 := Next(j1, TryRunLock);
    var j3 := Next(j2, TryExecutionLock);
    var locking := StartsWithTwo(j2, TryExecutionLock, RetestResult, rest);
    steps := StartsWithTwo(j, TestManifest, TryRunLock, locking);
  }

  /** An abandoned job is reported as interrupted: the agent goes through all its tests and writes the result. */
  lemma AbandonedIsInterrupted(j: Job) returns (steps: seq<Step>)
    requires IsAbandoned(j)
    ensures steps == [TestManifest, TryRunLock, TryExecutionLock, RetestResult] + [WriteInterrupted]
    ensures IsRun(j, steps) && After(j, steps).result && After(j, steps).results == j.results + 1
    ensures After(j, steps).trainings == j.trainings
  {
    steps := StartsWith(Recovering(j), WriteInterrupted, []);
    steps := RecoveryStarts(j, steps);
  }

  /**
   A runner that is cancelled or fails before it has a supervisor, or that sees its supervisor gone, writes the result
   next.
   */
  lemma StoppedRunnerReports(j: Job, s: Step) returns (steps: seq<Step>)
    requires Enabled(j, s)
    requires s.RunnerCancels? || s.SupervisorSeenGone? || (s.RunnerFails? && j.runner.Preparing?)
    ensures steps == [s, WriteResult] && IsRun(j, steps)
    ensures After(j, steps).result && After(j, steps).runner.Reported? && After(j, steps).trainings == j.trainings
  {
    var none: seq<Step> := [];
    steps := StartsWithTwo(j, s, WriteResult, none);
    assert steps == [s, WriteResult];
  }

  // ----- No job is stuck -----

  /** A step towards a result, taken by whoever can. */
  function NextTowardsResult(j: Job): Step {
    match j.agent
    case Outside => if j.manifest && IsRunnerAlive(j.runner) then NextOfRunner(j) else TestManifest
    case SawNoManifest => WriteManifest
    case ManifestWritten => SpawnRunner(true)
    case SpawnFailed => WriteSpawnFailure
    case SawNoResult => if j.runLock.Nobody? then TryRunLock else NextOfRunner(j)
    case HoldsRun => if j.executionLock.Nobody? then TryExecutionLock else NextOfSupervisor(j.supervisor)
    case HoldsBoth => RetestResult
    case MayInterrupt | WroteInterrupted => WriteInterrupted
  }

  predicate IsRunnerAlive(r: Runner) { !r.NotSpawned? && !r.RunnerGone? }

  function NextOfRunner(j: Job): Step {
    match j.runner
    case Spawned => RunnerLocks
    case RunLocked => RunnerTestsResult
    case Preparing => if j.cancel then RunnerCancels else StartSupervisor
    case Supervising | Failing =>
      if j.supervisor.SupervisorGone? then SupervisorSeenGone else NextOfSupervisor(j.supervisor)
    case MayReport => WriteResult
    case _ => RunnerEnds
  }

  /** How far it is to a result: first by runner and supervisor, then by the agent. */
  function Distance(j: Job): nat {
    var work :=
      match j.runner
      case NotSpawned => 30
      case Spawned => 25
      case RunLocked => 24
      case Preparing => 23
      case Supervising | Failing => 10 + WorkOfSupervisor(j.supervisor)
      case MayReport => 12
      case Reported => 11
      case RunnerGone => WorkOfSupervisor(j.supervisor);
    10 * work + DistanceOfAgent(j.agent)
  }

  function DistanceOfAgent(a: Agent): nat {
    match a
    case Outside => 8
    case SawNoManifest => 7
    case ManifestWritten => 6
    case SawNoResult => 5
    case HoldsRun => 4
    case HoldsBoth => 3
    case MayInterrupt => 2
    case SpawnFailed => 1
    case WroteInterrupted => 0
  }

  /** The step can be taken, it is neither a crash nor a failure, and the result is there or nearer after it. */
  ghost predicate LeadsOn(j: Job, s: Step) {
    && Enabled(j, s) && !IsCrash(s)
    && (Next(j, s).result || Distance(Next(j, s)) < Distance(j))
  }

  predicate IsCrash(s: Step) { s.AgentCrash? || s.RunnerCrash? || s.SupervisorCrash? || s.RunnerFails? }

  lemma SupervisorLeadsOn(j: Job)
    requires Inv(j) && !j.result && !j.supervisor.NotStarted? && !j.supervisor.SupervisorGone?
    requires j.runner.Supervising? || j.runner.Failing? || j.runner.RunnerGone?
    ensures LeadsOn(j, NextOfSupervisor(j.supervisor))
  {
  }

  lemma RunnerLeadsOn(j: Job)
    requires Inv(j) && !j.result && IsRunnerAlive(j.runner)
    ensures LeadsOn(j, NextOfRunner(j))
  {
    if (j.runner.Supervising? || j.runner.Failing?) && !j.supervisor.SupervisorGone? {
      SupervisorLeadsOn(j);
    }
  }

  lemma AgentLeadsOn(j: Job)
    requires Inv(j) && !j.result
    ensures LeadsOn(j, NextTowardsResult(j))
  {
    match j.agent
    case Outside => if j.manifest && IsRunnerAlive(j.runner) { RunnerLeadsOn(j); }
    case SawNoResult => if !j.runLock.Nobody? { RunnerLeadsOn(j); }
    case HoldsRun => if !j.executionLock.Nobody? { SupervisorLeadsOn(j); }
    case _ => AgentAloneLeadsOn(j);
  }

  lemma AgentAloneLeadsOn(j: Job)
    requires Inv(j) && !j.result && !j.agent.Outside? && !j.agent.SawNoResult? && !j.agent.HoldsRun?
    ensures LeadsOn(j, NextTowardsResult(j))
  {
  }

  /** From every reachable state without result, steps that are neither crashes nor failures lead to one. */
  lemma {:induction false} EveryJobCanEnd(j: Job) returns (steps: seq<Step>)
    requires Inv(j)
    ensures IsRun(j, steps) && After(j, steps).result && forall s :: s in steps ==> !IsCrash(s)
    decreases Distance(j)
  {
    if j.result {
      steps := [];
    } else {
      var s := NextTowardsResult(j);
      AgentLeadsOn(j);
      StepKeeps(j, s);
      var rest;
      if Next(j, s).result {
        rest := [];
      } else {
        rest := EveryJobCanEnd(Next(j, s));
      }
      steps := StartsWith(j, s, rest);
    }
  }

  /**
   Why the agent must wait: it launches the runner, finds no result and takes both locks before the runner does. The
   job is then over, and no further run trains.
   */
  lemma EarlyRecoveryPreventsTraining(later: seq<Step>) returns (steps: seq<Step>)
    ensures steps == [TestManifest, WriteManifest, SpawnRunner(true), TestManifest]
                     + [TryRunLock, TryExecutionLock, RetestResult, WriteInterrupted]
    ensures IsRun(Start, steps) && After(Start, steps).result && After(Start, steps).runner.Spawned?
    ensures IsRun(After(Start, steps), later) ==> After(After(Start, steps), later).trainings == 0
  {
    steps := StartsWith(Recovering(Launched), WriteInterrupted, []);
    steps := RecoveryStarts(Launched, steps);
    steps := LaunchStarts(steps);
    RunKeeps(Start, steps);
    if IsRun(After(Start, steps), later) {
      ResultStays(After(Start, steps), later);
    }
  }
}
