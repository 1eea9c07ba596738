/**
  The status of one application: the rules it is deployed with, the processes it owns,
  their grouping by sequence rank, and the application state and failure flags that
  are folded from the states of those processes.
 */
module Application {
  import opened Wrappers

  /** The process states of the single-node supervisor. */
  datatype ProcessState = Stopped | Starting | Running | Backoff | Stopping | Exited | Fatal | Unknown

  /** The states an application goes through. */
  datatype ApplicationState = Unknown | Stopping | Stopped | Starting | Running

  /** What to do when a required process cannot be started while its application starts. */
  datatype StartingFailureStrategy = Abort | Continue | Stop

  /** What to do when a required process crashes while its application runs. */
  datatype RunningFailureStrategy = Continue | RestartProcess | RestartApplication | StopApplication

  /**
    What the application reads of one of its processes: its name, its state, whether
    its last exit was expected, and its `required` and `sequence` rules.
   */
  datatype Process = Process(processName: string, state: ProcessState, expectedExit: bool,
                             required: bool, sequence: int)

  /** A crash that counts against the application: FATAL, or EXITED with an unexpected exit. */
  predicate Crashed(p: Process)
  {
    p.state == ProcessState.Fatal || (p.state == ProcessState.Exited && !p.expectedExit)
  }

  /** The one flag of the status scan that a process raises, if any. */
  datatype Contribution = Starts | Runs | Stops | MajorFailure | MinorFailure | Nothing

  /** The elif chain of the status scan: each process falls into exactly one category. */
  function Classify(p: Process): (c: Contribution)
    ensures c == Runs <==> p.state == ProcessState.Running
    ensures c == Starts <==> p.state == ProcessState.Starting || p.state == ProcessState.Backoff
    ensures c == Stops <==> p.state == ProcessState.Stopping
    ensures c == MajorFailure <==> Crashed(p) && p.required
    ensures c == MinorFailure <==> Crashed(p) && !p.required
    ensures c == Nothing <==>
              p.state == ProcessState.Stopped || p.state == ProcessState.Unknown
              || (p.state == ProcessState.Exited && p.expectedExit)
  {
    if p.state == ProcessState.Running then Runs
    else if p.state == ProcessState.Starting || p.state == ProcessState.Backoff then Starts
    else if p.state == ProcessState.Stopping then Stops
    else if Crashed(p) then (if p.required then MajorFailure else MinorFailure)
    else Nothing
  }

  /** Some process stored under one of `names` raises flag `c`. */
  predicate HasAmong(ps: map<string, Process>, names: set<string>, c: Contribution)
  {
    exists n :: n in names && n in ps && Classify(ps[n]) == c
  }

  /** Some process of the application raises flag `c`. */
  predicate Has(ps: map<string, Process>, c: Contribution)
  {
    HasAmong(ps, ps.Keys, c)
  }

  /** Scanning one more process raises flag `c` exactly when it or an earlier one does. */
  lemma HasAmongOneMore(ps: map<string, Process>, names: set<string>, n: string, c: Contribution)
    requires n in ps
    ensures HasAmong(ps, names + {n}, c) <==> HasAmong(ps, names, c) || Classify(ps[n]) == c
  {
  }

  /** The application is running: starting or running. */
  predicate IsRunning(s: ApplicationState)
  {
    s == ApplicationState.Starting || s == ApplicationState.Running
  }

  /** The application is stopped: unknown or stopped. */
  predicate IsStopped(s: ApplicationState)
  {
    s == ApplicationState.Unknown || s == ApplicationState.Stopped
  }

  /** The part of an application status that update_status sets. */
  datatype Status = Status(state: ApplicationState, majorFailure: bool, minorFailure: bool)

  /**
    The status update_status computes from the processes of an application. The state
    follows the precedence STARTING > STOPPING > RUNNING > STOPPED, and a crashed process
    is a major (required) or minor (optional) failure only while the application runs.
   */
  function Rollup(ps: map<string, Process>): (r: Status)
    ensures r.state != ApplicationState.Unknown
    ensures !IsRunning(r.state) ==> !r.majorFailure && !r.minorFailure
    ensures ps == map[] ==> r == Status(ApplicationState.Stopped, false, false)
  {
    var state :=
      if Has(ps, Starts) then ApplicationState.Starting
      else if Has(ps, Stops) then ApplicationState.Stopping
      else if Has(ps, Runs) then ApplicationState.Running
      else ApplicationState.Stopped;
    Status(state, Has(ps, MajorFailure) && IsRunning(state), Has(ps, MinorFailure) && IsRunning(state))
  }

  /**
    The rollup in terms of the process states themselves: the precedence of the
    application states, and which crashed processes are reported as failures.
   */
  lemma RollupPrecedence(ps: map<string, Process>)
    ensures var r := Rollup(ps);
      && (r.state == ApplicationState.Starting <==>
            exists n :: n in ps && (ps[n].state == ProcessState.Starting || ps[n].state == ProcessState.Backoff))
      && (r.state == ApplicationState.Stopping <==>
            (forall n :: n in ps ==> ps[n].state != ProcessState.Starting && ps[n].state != ProcessState.Backoff)
            && exists n :: n in ps && ps[n].state == ProcessState.Stopping)
      && (r.state == ApplicationState.Running <==>
            (forall n :: n in ps ==> ps[n].state !in {ProcessState.Starting, ProcessState.Backoff, ProcessState.Stopping})
            && exists n :: n in ps && ps[n].state == ProcessState.Running)
      && (r.state == ApplicationState.Stopped <==>
            forall n :: n in ps ==>
              ps[n].state !in {ProcessState.Starting, ProcessState.Backoff, ProcessState.Stopping, ProcessState.Running})
      && (r.majorFailure <==> IsRunning(r.state) && exists n :: n in ps && ps[n].required && Crashed(ps[n]))
      && (r.minorFailure <==> IsRunning(r.state) && exists n :: n in ps && !ps[n].required && Crashed(ps[n]))
  {
  }

  /**
    After an update, the application runs exactly when some process is starting, or
    none is stopping and some is running; it is stopped exactly when every process is
    in a stopped-like state; and it is never both.
   */
  lemma RollupRunningOrStopped(ps: map<string, Process>)
    ensures var r := Rollup(ps);
      && (IsRunning(r.state) <==>
            (exists n :: n in ps && (ps[n].state == ProcessState.Starting || ps[n].state == ProcessState.Backoff))
            || ((forall n :: n in ps ==> ps[n].state != ProcessState.Stopping)
                && exists n :: n in ps && ps[n].state == ProcessState.Running))
      && (IsStopped(r.state) <==>
            forall n :: n in ps ==>
              ps[n].state !in {ProcessState.Starting, ProcessState.Backoff, ProcessState.Stopping, ProcessState.Running})
      && !(IsRunning(r.state) && IsStopped(r.state))
  {
    RollupPrecedence(ps);
  }

  /** What update_status reads of a process: its state, its exit expectation and its `required` rule. */
  function Observed(p: Process): (ProcessState, bool, bool)
  {
    (p.state, p.expectedExit, p.required)
  }

  /**
    The status depends on nothing but the observed part of each process, so re-running
    the update with processes that look the same gives the same status.
   */
  lemma RollupReadsOnlyObservedFields(ps: map<string, Process>, qs: map<string, Process>)
    requires ps.Keys == qs.Keys
    requires forall n :: n in ps ==> Observed(ps[n]) == Observed(qs[n])
    ensures Rollup(ps) == Rollup(qs)
  {
  }

  /** A new process that is stopped, unknown or exited as expected leaves the status as it was. */
  lemma AddQuietProcessKeepsRollup(ps: map<string, Process>, p: Process)
    requires p.processName !in ps
    requires Classify(p) == Nothing
    ensures Rollup(ps[p.processName := p]) == Rollup(ps)
  {
    var qs := ps[p.processName := p];
    forall c | c != Nothing
      ensures Has(qs, c) == Has(ps, c)
    {
      if Has(qs, c) {
        var n :| n in qs && Classify(qs[n]) == c;
        assert n != p.processName && Classify(ps[n]) == c;
      }
      if Has(ps, c) {
        var n :| n in ps && Classify(ps[n]) == c;
        assert n in qs && Classify(qs[n]) == c;
      }
    }
  }

  /** Storing a starting (or backing-off) process makes the whole application STARTING, whatever the others do. */
  lemma AddStartingProcessMakesStarting(ps: map<string, Process>, p: Process)
    requires p.state == ProcessState.Starting || p.state == ProcessState.Backoff
    ensures Rollup(ps[p.processName := p]).state == ApplicationState.Starting
  {
    var qs := ps[p.processName := p];
    assert p.processName in qs && qs[p.processName] == p;
  }

  /**
    A required process that is FATAL while a sibling still starts: the application stays
    STARTING and reports a major failure; once the sibling is stopped too, the application
    is STOPPED and the failure is no longer reported.
   */
  lemma RequiredFatalWhileStarting()
    ensures var p1 := Process("p1", ProcessState.Fatal, false, true, 1);
            var p2 := Process("p2", ProcessState.Starting, false, false, 2);
            Rollup(map["p1" := p1, "p2" := p2]) == Status(ApplicationState.Starting, true, false)
    ensures var p1 := Process("p1", ProcessState.Fatal, false, true, 1);
            var p2 := Process("p2", ProcessState.Stopped, false, false, 2);
            Rollup(map["p1" := p1, "p2" := p2]) == Status(ApplicationState.Stopped, false, false)
  {
    var p1 := Process("p1", ProcessState.Fatal, false, true, 1);
    var p2 := Process("p2", ProcessState.Starting, false, false, 2);
    var ps := map["p1" := p1, "p2" := p2];
    assert ps["p2"].state == ProcessState.Starting;
    assert ps["p1"].required && Crashed(ps["p1"]);
    var p2' := Process("p2", ProcessState.Stopped, false, false, 2);
    var qs := map["p1" := p1, "p2" := p2'];
    assert qs.Keys == {"p1", "p2"};
  }

  /**
    The buckets of a sequencing: none is empty, each holds only owned processes under
    their own `sequence` rank, and every owned process is in its bucket exactly once.
   */
  ghost predicate IsSequencing(buckets: map<int, seq<Process>>, ps: map<string, Process>)
  {
    && (forall k :: k in buckets ==> buckets[k] != [])
    && (forall k, i :: k in buckets && 0 <= i < |buckets[k]| ==>
          buckets[k][i].processName in ps && ps[buckets[k][i].processName] == buckets[k][i]
          && buckets[k][i].sequence == k)
    && (forall n :: n in ps ==> ps[n].sequence in buckets && multiset(buckets[ps[n].sequence])[ps[n]] == 1)
  }

  /** The deployment rules of an application. */
  class ApplicationRules {
    var autostart: bool
    var sequence: int
    var startingFailureStrategy: StartingFailureStrategy
    var runningFailureStrategy: RunningFailureStrategy
    /** Attributes the deployment parser adds; None until it does. */
    var startSequence: Option<int>
    var stopSequence: Option<int>

    constructor ()
      ensures !autostart && sequence == -1
      ensures startingFailureStrategy == StartingFailureStrategy.Abort
      ensures runningFailureStrategy == RunningFailureStrategy.Continue
      ensures startSequence == None && stopSequence == None
    {
      autostart := false;
      sequence := -1;
      startingFailureStrategy := StartingFailureStrategy.Abort;
      runningFailureStrategy := RunningFailureStrategy.Continue;
      startSequence, stopSequence := None, None;
    }
  }

  /** The status of one application and the processes it owns. */
  class ApplicationStatus {
    const applicationName: string
    var state: ApplicationState
    var majorFailure: bool
    var minorFailure: bool
    var processes: map<string, Process>
    const rules: ApplicationRules
    var sequence: map<int, seq<Process>>

    /** Every process is stored under its own name. */
    ghost predicate KeyedByName()
      reads this
    {
      forall n :: n in processes ==> processes[n].processName == n
    }

    /** A failure flag is only raised while the application is running. */
    ghost predicate FlagsCoherent()
      reads this
    {
      (majorFailure || minorFailure) ==> IsRunning(state)
    }

    function Current(): Status
      reads this
    {
      Status(state, majorFailure, minorFailure)
    }

    constructor (applicationName: string)
      ensures this.applicationName == applicationName
      ensures state == ApplicationState.Unknown && !majorFailure && !minorFailure
      ensures processes == map[] && sequence == map[]
      ensures fresh(rules) && !rules.autostart && rules.sequence == -1
      ensures rules.startingFailureStrategy == StartingFailureStrategy.Abort
      ensures rules.runningFailureStrategy == RunningFailureStrategy.Continue
      ensures KeyedByName() && FlagsCoherent()
    {
      this.applicationName := applicationName;
      state := ApplicationState.Unknown;
      majorFailure, minorFailure := false, false;
      processes := map[];
      rules := new ApplicationRules();
      sequence := map[];
    }

    /** The application is starting or running; then it is never stopped. */
    predicate Running()
      reads this
      ensures Running() ==> !IsStopped(state)
    {
      IsRunning(state)
    }

    /** The application is unknown or stopped: neither running nor on its way to stop. */
    predicate Stopped()
      reads this
      ensures Stopped() <==> !IsRunning(state) && state != ApplicationState.Stopping
    {
      IsStopped(state)
    }

    /** The state setter; it only writes (and logs) a state that differs. */
    method SetState(newState: ApplicationState)
      modifies this`state
      ensures state == newState
    {
      if state != newState {
        state := newState;
      }
    }

    /** Stores a process under its name, replacing a former one of that name. */
    method AddProcess(p: Process)
      requires KeyedByName()
      modifies this`processes
      ensures processes == old(processes)[p.processName := p]
      ensures KeyedByName()
    {
      processes := processes[p.processName := p];
    }

    /** Rebuilds the buckets of processes by sequence rank from scratch. */
    method SequenceDeployment()
      requires KeyedByName()
      modifies this`sequence
      ensures IsSequencing(sequence, processes)
    {
      sequence := map[];
      var rest := processes.Keys;
      ghost var done: set<string> := {};
      while rest != {}
        invariant rest !! done && rest + done == processes.Keys
        invariant forall k :: k in sequence ==> sequence[k] != []
        invariant forall k, i :: k in sequence && 0 <= i < |sequence[k]| ==>
                    sequence[k][i].processName in done
                    && processes[sequence[k][i].processName] == sequence[k][i] && sequence[k][i].sequence == k
        invariant forall m :: m in done ==>
                    processes[m].sequence in sequence && multiset(sequence[processes[m].sequence])[processes[m]] == 1
        decreases rest
      {
        var n :| n in rest;
        var p := processes[n];
        var bucket := if p.sequence in sequence then sequence[p.sequence] else [];
        assert p.processName == n;
        assert multiset(bucket)[p] == 0 by {
          forall i | 0 <= i < |bucket|
            ensures bucket[i] != p
          {
            assert bucket[i].processName in done;
          }
        }
        forall m | m in done
          ensures processes[m] != p
        {
          assert processes[m].processName == m;
        }
        sequence := sequence[p.sequence := bucket + [p]];
        rest := rest - {n};
        done := done + {n};
      }
    }

    /**
      Folds the states of the processes into the application state and the failure
      flags. The result depends only on the processes, so a second call changes nothing.
     */
    method UpdateStatus()
      modifies this`state, this`majorFailure, this`minorFailure
      ensures Current() == Rollup(processes)
      ensures FlagsCoherent()
      ensures old(Current()) == Rollup(processes) ==> unchanged(this)
    {
      var starting, running, stopping, major, minor := Scan(processes);
      if starting {
        SetState(ApplicationState.Starting);
      } else if stopping {
        SetState(ApplicationState.Stopping);
      } else if running {
        SetState(ApplicationState.Running);
      } else {
        SetState(ApplicationState.Stopped);
      }
      majorFailure := major && Running();
      minorFailure := minor && Running();
    }
  }

  /**
    The scan loop of update_status: visits every process once, in any order, and raises
    the flag of its category.
   */
  method Scan(processes: map<string, Process>)
    returns (starting: bool, running: bool, stopping: bool, major: bool, minor: bool)
    ensures starting == Has(processes, Starts) && running == Has(processes, Runs)
    ensures stopping == Has(processes, Stops)
    ensures major == Has(processes, MajorFailure) && minor == Has(processes, MinorFailure)
  {
    starting, running, stopping, major, minor := false, false, false, false, false;
    var rest := processes.Keys;
    ghost var done: set<string> := {};
    while rest != {}
      invariant rest !! done && rest + done == processes.Keys
      invariant starting == HasAmong(processes, done, Starts)
      invariant running == HasAmong(processes, done, Runs)
      invariant stopping == HasAmong(processes, done, Stops)
      invariant major == HasAmong(processes, done, MajorFailure)
      invariant minor == HasAmong(processes, done, MinorFailure)
      decreases rest
    {
      var n :| n in rest;
      var p := processes[n];
      if p.state == ProcessState.Running {
        running := true;
      } else if p.state == ProcessState.Starting || p.state == ProcessState.Backoff {
        starting := true;
      } else if p.state == ProcessState.Stopping {
        stopping := true;
      } else if p.state == ProcessState.Fatal || (p.state == ProcessState.Exited && !p.expectedExit) {
        if p.required {
          major := true;
        } else {
          minor := true;
        }
      }
      HasAmongOneMore(processes, done, n, Starts);
      HasAmongOneMore(processes, done, n, Runs);
      HasAmongOneMore(processes, done, n, Stops);
      HasAmongOneMore(processes, done, n, MajorFailure);
      HasAmongOneMore(processes, done, n, MinorFailure);
      rest := rest - {n};
      done := done + {n};
    }
    assert done == processes.Keys;
  }
}
