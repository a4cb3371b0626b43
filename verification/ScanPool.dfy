/**
 The worker pool of scanHosts in internal/scanner/scanner.go as a protocol: main fills and closes the task
 channel, a fixed number of workers dial and send what is open to the result channel, a closer waits for the
 workers and closes the result channel, and main collects until then. Any thread may take the next step.
*/
module ScanPool {
  import opened Addresses
  import opened Options

  datatype Task = Task(ip: IP, port: nat)

  /** What a scan is given: open tells which dials succeed. */
  datatype Config = Config(ips: seq<IP>, ports: seq<nat>, workers: nat, open: Task -> bool) {
    /** The capacity of both channels, len(ips) * len(ports): see CapacityIsProduct. */
    function Capacity(): nat {
      |AllTasks(ips, ports)|
    }
  }

  function TasksFor(ip: IP, ports: seq<nat>): (ts: seq<Task>)
    ensures |ts| == |ports| && forall i :: 0 <= i < |ts| ==> ts[i] == Task(ip, ports[i])
  {
    seq(|ports|, i requires 0 <= i < |ports| => Task(ip, ports[i]))
  }

  /** The tasks in the order of the enqueuing loops. */
  function AllTasks(ips: seq<IP>, ports: seq<nat>): seq<Task> {
    if ips == [] then [] else AllTasks(ips[..|ips| - 1], ports) + TasksFor(ips[|ips| - 1], ports)
  }

  lemma {:induction false} CapacityIsProduct(ips: seq<IP>, ports: seq<nat>)
    ensures |AllTasks(ips, ports)| == |ips| * |ports|
  {
    if ips != [] {
      var n, m := |ips| - 1, |ports|;
      CapacityIsProduct(ips[..n], ports);
      assert (n + 1) * m == n * m + m;
    }
  }

  datatype Worker = Receiving | Dialing(task: Task) | Sending(result: Task) | Finished

  datatype Main = Enqueuing | Spawning | Collecting | Done

  datatype Closer = NotStarted | Waiting | Closed

  datatype State = State(
    main: Main,
    sent: nat,
    tasks: seq<Task>,
    results: seq<Task>,
    got: seq<Task>,
    workers: seq<Worker>,
    waiting: int,
    closer: Closer,
    probed: seq<Task>)
  {
    predicate TasksClosed() { main != Enqueuing }
    predicate ResultsClosed() { closer == Closed }
  }

  datatype Thread = MainThread | WorkerThread(i: nat) | CloserThread

  function Start(c: Config): State {
    State(Enqueuing, 0, [], [], [], seq(c.workers, i => Receiving), c.workers, NotStarted, [])
  }

  predicate WorkerEnabled(c: Config, s: State, w: Worker) {
    match w
    case Receiving => s.tasks != [] || s.TasksClosed()
    case Dialing(_) => true
    case Sending(_) => |s.results| < c.Capacity() && !s.ResultsClosed()
    case Finished => false
  }

  predicate MainEnabled(c: Config, s: State) {
    match s.main
    case Enqueuing => s.sent == c.Capacity() || |s.tasks| < c.Capacity()
    case Spawning => true
    case Collecting => s.results != [] || s.ResultsClosed()
    case Done => false
  }

  /** Whether a thread can take a step: it is not blocked on a channel or the wait group, and not at its end. */
  predicate Enabled(c: Config, s: State, t: Thread) {
    match t
    case MainThread => MainEnabled(c, s)
    case WorkerThread(i) => i < |s.workers| && WorkerEnabled(c, s, s.workers[i])
    case CloserThread => s.closer == Waiting && s.waiting == 0
  }

  function DoMain(c: Config, s: State): State
    requires MainEnabled(c, s) && s.sent <= c.Capacity()
  {
    match s.main
    case Enqueuing =>
      if s.sent == c.Capacity() then s.(main := Spawning)
      else s.(sent := s.sent + 1, tasks := s.tasks + [AllTasks(c.ips, c.ports)[s.sent]])
    case Spawning => s.(main := Collecting, closer := Waiting)
    case Collecting =>
      if s.results != [] then s.(results := s.results[1..], got := s.got + [s.results[0]])
      else s.(main := Done)
  }

  function DoWorker(c: Config, s: State, i: nat): State
    requires i < |s.workers| && WorkerEnabled(c, s, s.workers[i])
  {
    match s.workers[i]
    case Receiving =>
      if s.tasks != [] then s.(tasks := s.tasks[1..], workers := s.workers[i := Dialing(s.tasks[0])])
      else s.(workers := s.workers[i := Finished], waiting := s.waiting - 1)
    case Dialing(t) =>
      s.(workers := s.workers[i := if c.open(t) then Sending(t) else Receiving], probed := s.probed + [t])
    case Sending(t) => s.(results := s.results + [t], workers := s.workers[i := Receiving])
  }

  function Do(c: Config, s: State, t: Thread): State
    requires Enabled(c, s, t) && s.sent <= c.Capacity()
  {
    match t
    case MainThread => DoMain(c, s)
    case WorkerThread(i) => DoWorker(c, s, i)
    case CloserThread => s.(closer := Closed)
  }

  // ----- counting -----

  function One(b: bool): nat {
    if b then 1 else 0
  }

  /** How often x occurs. */
  function Times(ts: seq<Task>, x: Task): nat {
    if ts == [] then 0 else Times(ts[..|ts| - 1], x) + One(ts[|ts| - 1] == x)
  }

  lemma TimesGrows(ts: seq<Task>, t: Task, x: Task)
    ensures Times(ts + [t], x) == Times(ts, x) + One(t == x)
  {
    assert (ts + [t])[..|ts|] == ts;
  }

  lemma {:induction false} TimesHead(ts: seq<Task>, x: Task)
    requires ts != []
    ensures Times(ts, x) == One(ts[0] == x) + Times(ts[1..], x)
  {
    if |ts| > 1 {
      assert ts[1..][..|ts| - 2] == ts[..|ts| - 1][1..];
      TimesHead(ts[..|ts| - 1], x);
    }
  }

  lemma {:induction false} TimesIsMultiplicity(ts: seq<Task>, x: Task)
    ensures Times(ts, x) == multiset(ts)[x]
  {
    if ts != [] {
      TimesIsMultiplicity(ts[..|ts| - 1], x);
      assert ts == ts[..|ts| - 1] + [ts[|ts| - 1]];
    }
  }

  /** What a worker may be counted for. */
  datatype Kind = Running | HoldsTask | HoldsResult | Dials(x: Task) | Sends(x: Task) {
    predicate Has(w: Worker) {
      match this
      case Running => w != Finished
      case HoldsTask => w.Dialing?
      case HoldsResult => w.Sending?
      case Dials(x) => w == Dialing(x)
      case Sends(x) => w == Sending(x)
    }
  }

  /** How many workers are of a kind. */
  function Workers(ws: seq<Worker>, kind: Kind): nat {
    if ws == [] then 0 else Workers(ws[..|ws| - 1], kind) + One(kind.Has(ws[|ws| - 1]))
  }

  lemma {:induction false} WorkerChanges(ws: seq<Worker>, i: nat, w: Worker, kind: Kind)
    requires i < |ws|
    ensures Workers(ws[i := w], kind) + One(kind.Has(ws[i])) == Workers(ws, kind) + One(kind.Has(w))
  {
    var n := |ws| - 1;
    if i == n {
      assert ws[i := w][..n] == ws[..n];
    } else {
      assert ws[i := w][..n] == ws[..n][i := w];
      WorkerChanges(ws[..n], i, w, kind);
    }
  }

  lemma {:induction false} SomeWorker(ws: seq<Worker>, kind: Kind) returns (i: nat)
    requires Workers(ws, kind) > 0
    ensures i < |ws| && kind.Has(ws[i])
  {
    if kind.Has(ws[|ws| - 1]) { i := |ws| - 1; } else { i := SomeWorker(ws[..|ws| - 1], kind); }
  }

  lemma {:induction false} NoWorker(ws: seq<Worker>, kind: Kind, i: nat)
    requires i < |ws| && kind.Has(ws[i])
    ensures Workers(ws, kind) > 0
  {
    if i < |ws| - 1 { NoWorker(ws[..|ws| - 1], kind, i); }
  }

  // ----- the invariant -----

  /** Every task enqueued so far waits, is held or was dialed. */
  ghost predicate KeepsTask(c: Config, s: State, x: Task)
    requires s.sent <= c.Capacity()
  {
    Times(AllTasks(c.ips, c.ports)[..s.sent], x) ==
    Times(s.tasks, x) + Workers(s.workers, Dials(x)) + Times(s.probed, x)
  }

  /** Every success is about to be sent, waits or was collected. */
  ghost predicate KeepsResult(c: Config, s: State, x: Task) {
    Workers(s.workers, Sends(x)) + Times(s.results, x) + Times(s.got, x) == if c.open(x) then Times(s.probed, x) else 0
  }

  ghost predicate Phases(c: Config, s: State) {
    && s.sent <= c.Capacity()
    && s.sent == |s.tasks| + Workers(s.workers, HoldsTask) + |s.probed|
    && Workers(s.workers, HoldsResult) + |s.results| + |s.got| <= |s.probed|
    && (s.main != Enqueuing ==> s.sent == c.Capacity())
    && (s.closer == NotStarted <==> s.main == Enqueuing || s.main == Spawning)
    && (s.closer == Closed ==> s.waiting == 0)
    && (s.main == Done ==> s.closer == Closed && s.results == [])
    && |s.workers| == c.workers
    && s.waiting == Workers(s.workers, Running)
    && (s.waiting < c.workers ==> s.TasksClosed() && s.tasks == [])
  }

  ghost predicate Inv(c: Config, s: State) {
    && Phases(c, s)
    && forall x :: KeepsTask(c, s, x) && KeepsResult(c, s, x)
  }

  lemma {:induction false} AllReceiving(n: nat, kind: Kind)
    ensures Workers(seq(n, i => Receiving), kind) == if kind.Has(Receiving) then n else 0
  {
    if n > 0 {
      assert seq(n, i => Receiving)[..n - 1] == seq(n - 1, i => Receiving);
      AllReceiving(n - 1, kind);
    }
  }

  lemma StartInv(c: Config)
    ensures Inv(c, Start(c))
  {
    AllReceiving(c.workers, Running);
    AllReceiving(c.workers, HoldsTask);
    AllReceiving(c.workers, HoldsResult);
    forall x ensures KeepsTask(c, Start(c), x) && KeepsResult(c, Start(c), x) {
      AllReceiving(c.workers, Dials(x));
      AllReceiving(c.workers, Sends(x));
    }
  }

  lemma EnqueueKeeps(c: Config, s: State, x: Task)
    requires s.sent < c.Capacity() && KeepsTask(c, s, x)
    ensures var t := AllTasks(c.ips, c.ports)[s.sent];
            KeepsTask(c, s.(sent := s.sent + 1, tasks := s.tasks + [t]), x)
  {
    var all := AllTasks(c.ips, c.ports);
    assert all[..s.sent + 1] == all[..s.sent] + [all[s.sent]];
    TimesGrows(all[..s.sent], all[s.sent], x);
    TimesGrows(s.tasks, all[s.sent], x);
  }

  lemma MainConserves(c: Config, s: State, x: Task)
    requires Phases(c, s) && MainEnabled(c, s) && KeepsTask(c, s, x) && KeepsResult(c, s, x)
    ensures var s' := DoMain(c, s); s'.sent <= c.Capacity() && KeepsTask(c, s', x) && KeepsResult(c, s', x)
  {
    if s.main == Enqueuing && s.sent < c.Capacity() {
      EnqueueKeeps(c, s, x);
    } else if s.main == Collecting && s.results != [] {
      TimesHead(s.results, x);
      TimesGrows(s.got, s.results[0], x);
    }
  }

  lemma WorkerKeepsTask(c: Config, s: State, i: nat, x: Task)
    requires s.sent <= c.Capacity() && i < |s.workers| && WorkerEnabled(c, s, s.workers[i]) && KeepsTask(c, s, x)
    ensures KeepsTask(c, DoWorker(c, s, i), x)
  {
    WorkerChanges(s.workers, i, DoWorker(c, s, i).workers[i], Dials(x));
    match s.workers[i] {
      case Receiving => if s.tasks != [] { TimesHead(s.tasks, x); }
      case Dialing(t) => TimesGrows(s.probed, t, x);
      case Sending(t) =>
    }
  }

  lemma WorkerKeepsResult(c: Config, s: State, i: nat, x: Task)
    requires i < |s.workers| && WorkerEnabled(c, s, s.workers[i]) && KeepsResult(c, s, x)
    ensures KeepsResult(c, DoWorker(c, s, i), x)
  {
    WorkerChanges(s.workers, i, DoWorker(c, s, i).workers[i], Sends(x));
    match s.workers[i] {
      case Receiving =>
      case Dialing(t) => TimesGrows(s.probed, t, x);
      case Sending(t) => TimesGrows(s.results, t, x);
    }
  }

  lemma WorkerPhases(c: Config, s: State, i: nat)
    requires Phases(c, s) && i < |s.workers| && WorkerEnabled(c, s, s.workers[i])
    ensures Phases(c, DoWorker(c, s, i))
  {
    var w := DoWorker(c, s, i).workers[i];
    NoWorker(s.workers, Running, i);
    WorkerChanges(s.workers, i, w, Running);
    WorkerChanges(s.workers, i, w, HoldsTask);
    WorkerChanges(s.workers, i, w, HoldsResult);
  }

  lemma StepKeeps(c: Config, s: State, t: Thread)
    requires Inv(c, s) && Enabled(c, s, t)
    ensures Inv(c, Do(c, s, t))
  {
    var s' := Do(c, s, t);
    if t.WorkerThread? { WorkerPhases(c, s, t.i); }
    forall x ensures KeepsTask(c, s', x) && KeepsResult(c, s', x) {
      assert KeepsTask(c, s, x) && KeepsResult(c, s, x);
      match t {
        case MainThread => MainConserves(c, s, x);
        case WorkerThread(i) =>
          WorkerKeepsTask(c, s, i, x);
          WorkerKeepsResult(c, s, i, x);
        case CloserThread =>
      }
    }
  }

  // ----- channels never block for good -----

  /** Both channels have room for whatever is sent to them, and nobody sends to a closed one. */
  lemma SendsNeverBlock(c: Config, s: State)
    requires Inv(c, s)
    ensures s.main == Enqueuing && s.sent < c.Capacity() ==> |s.tasks| < c.Capacity() && !s.TasksClosed()
    ensures forall i :: 0 <= i < |s.workers| && s.workers[i].Sending? ==>
              |s.results| < c.Capacity() && !s.ResultsClosed()
  {
    forall i | 0 <= i < |s.workers| && s.workers[i].Sending?
      ensures |s.results| < c.Capacity() && !s.ResultsClosed()
    {
      NoWorker(s.workers, HoldsResult, i);
      NoWorker(s.workers, Running, i);
    }
  }

  /** As long as main is not done some thread can take a step. */
  lemma NeverStuck(c: Config, s: State) returns (t: Thread)
    requires Inv(c, s) && s.main != Done
    ensures Enabled(c, s, t)
  {
    SendsNeverBlock(c, s);
    if MainEnabled(c, s) {
      t := MainThread;
    } else if s.waiting == 0 {
      t := CloserThread;
    } else {
      var i := SomeWorker(s.workers, Running);
      t := WorkerThread(i);
    }
  }

  function MainRank(m: Main): nat {
    match m case Enqueuing => 3 case Spawning => 2 case Collecting => 1 case Done => 0
  }

  function CloserRank(k: Closer): nat {
    match k case NotStarted => 2 case Waiting => 1 case Closed => 0
  }

  /** Work still to be done: each task and each result weighs less at each station it passes. */
  function Measure(c: Config, s: State): nat
    requires s.sent <= c.Capacity()
  {
    5 * (c.Capacity() - s.sent) + 4 * |s.tasks| + 3 * Workers(s.workers, HoldsTask)
    + 2 * Workers(s.workers, HoldsResult) + |s.results| + Workers(s.workers, Running)
    + MainRank(s.main) + CloserRank(s.closer)
  }

  lemma StepsCount(c: Config, s: State, t: Thread)
    requires Phases(c, s) && Enabled(c, s, t)
    ensures Do(c, s, t).sent <= c.Capacity() && Measure(c, Do(c, s, t)) < Measure(c, s)
  {
    if t.WorkerThread? {
      var w := DoWorker(c, s, t.i).workers[t.i];
      WorkerChanges(s.workers, t.i, w, Running);
      WorkerChanges(s.workers, t.i, w, HoldsTask);
      WorkerChanges(s.workers, t.i, w, HoldsResult);
    }
  }

  // ----- whole runs -----

  /** The state after the threads of the schedule took a step each, in its order; None when one of them could not. */
  function Run(c: Config, schedule: seq<Thread>): Option<State> {
    if schedule == [] then Some(Start(c)) else
      var before, t := Run(c, schedule[..|schedule| - 1]), schedule[|schedule| - 1];
      if before.Some? && before.value.sent <= c.Capacity() && Enabled(c, before.value, t)
      then Some(Do(c, before.value, t)) else None
  }

  lemma {:induction false} RunInv(c: Config, schedule: seq<Thread>)
    requires Run(c, schedule).Some?
    ensures var s := Run(c, schedule).value;
            Inv(c, s) && Measure(c, s) + |schedule| <= Measure(c, Start(c))
  {
    if schedule == [] {
      StartInv(c);
    } else {
      var before, t := schedule[..|schedule| - 1], schedule[|schedule| - 1];
      RunInv(c, before);
      StepKeeps(c, Run(c, before).value, t);
      StepsCount(c, Run(c, before).value, t);
    }
  }

  /** However the threads are scheduled, the scan ends: no run is longer, and none gets stuck before main is done. */
  lemma Terminates(c: Config, schedule: seq<Thread>)
    requires Run(c, schedule).Some?
    ensures |schedule| <= 5 * (|c.ips| * |c.ports|) + c.workers + 5
    ensures Run(c, schedule).value.main == Done || exists t :: Run(c, schedule + [t]).Some?
  {
    RunInv(c, schedule);
    var s := Run(c, schedule).value;
    AllReceiving(c.workers, Running);
    AllReceiving(c.workers, HoldsTask);
    AllReceiving(c.workers, HoldsResult);
    CapacityIsProduct(c.ips, c.ports);
    if s.main != Done {
      var t := NeverStuck(c, s);
      assert (schedule + [t])[..|schedule|] == schedule;
      assert Run(c, schedule + [t]).Some?;
    }
  }

  lemma NoneLeft(ws: seq<Worker>, kind: Kind)
    requires Workers(ws, Running) == 0 && !kind.Has(Finished)
    ensures Workers(ws, kind) == 0
  {
    if Workers(ws, kind) > 0 {
      var i := SomeWorker(ws, kind);
      NoWorker(ws, Running, i);
    }
  }

  lemma DoneCounts(c: Config, schedule: seq<Thread>, x: Task)
    requires c.workers > 0 && Run(c, schedule).Some? && Run(c, schedule).value.main == Done
    ensures var s := Run(c, schedule).value;
            && Times(s.probed, x) == Times(AllTasks(c.ips, c.ports), x)
            && Times(s.got, x) == if c.open(x) then Times(AllTasks(c.ips, c.ports), x) else 0
  {
    RunInv(c, schedule);
    var s := Run(c, schedule).value;
    assert KeepsTask(c, s, x) && KeepsResult(c, s, x);
    assert AllTasks(c.ips, c.ports)[..c.Capacity()] == AllTasks(c.ips, c.ports);
    NoneLeft(s.workers, Dials(x));
    NoneLeft(s.workers, Sends(x));
  }

  lemma AllAreFinished(c: Config, schedule: seq<Thread>)
    requires c.workers > 0 && Run(c, schedule).Some? && Run(c, schedule).value.main == Done
    ensures var s := Run(c, schedule).value;
            s.tasks == [] && s.results == [] && forall i :: 0 <= i < |s.workers| ==> s.workers[i] == Finished
  {
    RunInv(c, schedule);
    var s := Run(c, schedule).value;
    forall i | 0 <= i < |s.workers| ensures s.workers[i] == Finished {
      if s.workers[i] != Finished { NoWorker(s.workers, Running, i); }
    }
  }

  /** The tasks that succeed, in order. */
  function Successes(open: Task -> bool, ts: seq<Task>): seq<Task> {
    if ts == [] then [] else
      var t := ts[|ts| - 1];
      Successes(open, ts[..|ts| - 1]) + if open(t) then [t] else []
  }

  lemma {:induction false} TimesSuccesses(open: Task -> bool, ts: seq<Task>, x: Task)
    ensures Times(Successes(open, ts), x) == if open(x) then Times(ts, x) else 0
  {
    if ts != [] {
      var before, t := ts[..|ts| - 1], ts[|ts| - 1];
      TimesSuccesses(open, before, x);
      TimesGrows(Successes(open, before), t, x);
      assert Successes(open, before) + [] == Successes(open, before);
    }
  }

  /** When main is done every task was dialed exactly once and each success was collected exactly once. */
  lemma ProbesEachOnce(c: Config, schedule: seq<Thread>)
    requires c.workers > 0 && Run(c, schedule).Some? && Run(c, schedule).value.main == Done
    ensures var s, all := Run(c, schedule).value, AllTasks(c.ips, c.ports);
            && multiset(s.probed) == multiset(all)
            && multiset(s.got) == multiset(Successes(c.open, all))
            && s.tasks == [] && s.results == [] && forall i :: 0 <= i < |s.workers| ==> s.workers[i] == Finished
  {
    var s, all := Run(c, schedule).value, AllTasks(c.ips, c.ports);
    AllAreFinished(c, schedule);
    forall x: Task
      ensures multiset(s.probed)[x] == multiset(all)[x]
      ensures multiset(s.got)[x] == multiset(Successes(c.open, all))[x]
    {
      DoneCounts(c, schedule, x);
      TimesSuccesses(c.open, all, x);
      TimesIsMultiplicity(s.probed, x);
      TimesIsMultiplicity(all, x);
      TimesIsMultiplicity(s.got, x);
      TimesIsMultiplicity(Successes(c.open, all), x);
    }
  }
}
