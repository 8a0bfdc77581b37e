/** The GUI's tasks on one board (tools/adc_gui.py, main_gui): every task runs
    alone between two awaits, one port lock serialises the commands, and
    `acq` is what the client believes the board streams.

    A state machine over the tasks' await points. Any task may be started at
    any time; which one goes on is up to the action. */
module StreamBelief {
  import opened Common
  import opened FakeTarget

  // ------------------------------------------------------------------------
  // Tasks
  // ------------------------------------------------------------------------

  type id = nat

  /** What follows the starting of a stream: the grab of a cycle, or nothing. */
  datatype Next = ThenGrab | ThenDone

  /** Where a task waits. `Want..`: for the port lock; the others hold it while
      a command runs, `done` (or a reply) once the board has executed it. `t` is
      the target the task took when it started. */
  datatype Task =
    | WantOn(t: nat, cfg: Config, next: Next)
    | SendingOn(t: nat, cfg: Config, next: Next, reply: Option<bool>)
    | WantDac(t: nat, next: Next)
    | SendingDac(t: nat, next: Next, done: bool)
    | WantGrab(t: nat)
    | Grabbing(t: nat, reply: Option<bool>)
    | WantOff(t: nat)
    | SendingOff(t: nat, done: bool)
    | BufWaiting(t: nat)
    | WantBuf(t: nat)
    | BufOff(t: nat, done: bool)
    | SendingBuf(t: nat, done: bool)
    | WantCommands(t: nat)
    | SendingCommands(t: nat, done: bool)
    | WantClose(t: nat)
    | ClosingOff(t: nat, done: bool)
    | Closing(t: nat, done: bool)

  predicate Holds(k: Task) {
    k.SendingOn? || k.SendingDac? || k.Grabbing? || k.SendingOff? || k.BufOff? || k.SendingBuf? || k.SendingCommands?
    || k.ClosingOff? || k.Closing?
  }

  /** A task inside the body of `one_cycle`. */
  predicate InCycle(k: Task) {
    match k
    case WantOn(_, _, next) => next.ThenGrab?
    case SendingOn(_, _, next, _) => next.ThenGrab?
    case WantDac(_, next) => next.ThenGrab?
    case SendingDac(_, next, _) => next.ThenGrab?
    case WantGrab(_) => true
    case Grabbing(_, _) => true
    case _ => false
  }

  /** All boards connected so far, the newest last; `target` is the index of the connected one. */
  datatype Gui = Gui(
    boards: seq<Board>, target: Option<nat>, acq: Option<Config>, busy: bool, lock: Option<id>, tasks: map<id, Task>)

  // ------------------------------------------------------------------------
  // Actions
  // ------------------------------------------------------------------------

  datatype Action =
    | StartCycle(i: id, cfg: Config)
    | StartEnsure(i: id, cfg: Config)
    | StartStop(i: id)
    | StartBuf(i: id)
    | StartCommands(i: id)
    | Forget
    | StartDisconnect(i: id)
    | Connect(board: Board)
    | Wake(i: id)
    | Acquire(i: id)
    | Execute(i: id, cmd: Command, good: bool)
    | Resume(i: id, more: bool, crash: bool)

  predicate Enabled(g: Gui, a: Action) {
    match a
    case StartCycle(i, _) => i !in g.tasks
    case StartEnsure(i, _) => i !in g.tasks
    case StartStop(i) => i !in g.tasks
    case StartBuf(i) => i !in g.tasks
    case StartCommands(i) => i !in g.tasks
    case StartDisconnect(i) => i !in g.tasks
    case Forget => true
    case Connect(board) => !board.chainOn
    case Wake(i) => i in g.tasks && g.tasks[i].BufWaiting? && !g.busy
    case Acquire(i) => i in g.tasks && !Holds(g.tasks[i]) && !g.tasks[i].BufWaiting? && g.lock.None?
    case Execute(i, cmd, _) => i in g.tasks && Holds(g.tasks[i]) && !Executed(g.tasks[i]) && !IsStreamCommand(cmd)
                               && g.tasks[i].t < |g.boards|
    case Resume(i, _, _) => i in g.tasks && Holds(g.tasks[i]) && Executed(g.tasks[i])
  }

  predicate Executed(k: Task) {
    match k
    case SendingOn(_, _, _, reply) => reply.Some?
    case Grabbing(_, reply) => reply.Some?
    case SendingDac(_, _, done) => done
    case SendingOff(_, done) => done
    case BufOff(_, done) => done
    case SendingBuf(_, done) => done
    case SendingCommands(_, done) => done
    case ClosingOff(_, done) => done
    case Closing(_, done) => done
    case _ => false
  }

  function Put(g: Gui, i: id, k: Task): Gui { g.(tasks := g.tasks[i := k]) }

  function Drop(g: Gui, i: id): Gui { g.(tasks := g.tasks - {i}) }

  /** The start of `ensure_streaming`: nothing to do if the belief is the wanted input. */
  function Ensure(g: Gui, i: id, t: nat, cfg: Config, next: Next): Gui {
    if g.acq == Some(cfg) then
      if next.ThenGrab? then Put(g, i, WantGrab(t)) else g
    else Put(g, i, WantOn(t, cfg, next))
  }

  function Start(g: Gui, a: Action): Gui
    requires a.StartCycle? || a.StartEnsure? || a.StartStop? || a.StartBuf? || a.StartCommands? || a.StartDisconnect?
  {
    if g.target.None? then
      if a.StartStop? then g.(acq := None) else g
    else
      var t := g.target.value;
      match a
      case StartCycle(i, cfg) => if g.busy then g else Ensure(g.(busy := true), i, t, cfg, ThenGrab)
      case StartEnsure(i, cfg) => Ensure(g, i, t, cfg, ThenDone)
      case StartStop(i) => Put(g, i, WantOff(t))
      case StartBuf(i) => Put(g, i, BufWaiting(t))
      case StartCommands(i) => Put(g, i, WantCommands(t))
      case StartDisconnect(i) => Put(g, i, WantClose(t))
  }

  /** The lock is free and the task takes it; the code up to the next await. */
  function Taken(g: Gui, i: id): Gui
    requires i in g.tasks
  {
    var h := g.(lock := Some(i));
    match g.tasks[i]
    case WantOn(t, cfg, next) => Put(h, i, SendingOn(t, cfg, next, None))
    case WantDac(t, next) => Put(h, i, SendingDac(t, next, false))
    case WantGrab(t) => Put(h, i, Grabbing(t, None))
    case WantOff(t) => Put(h, i, SendingOff(t, false))
    case WantBuf(t) => Put(h, i, if g.acq.Some? then BufOff(t, false) else SendingBuf(t, false))
    case WantCommands(t) => Put(h, i, SendingCommands(t, false))
    case WantClose(t) =>
      if g.acq.Some? then Put(h, i, ClosingOff(t, false)) else Put(h.(target := None), i, Closing(t, false))
    case _ => g
  }

  function OnBoard(g: Gui, t: nat, b: Board): Gui
    requires t < |g.boards|
  {
    g.(boards := g.boards[t := b])
  }

  /** The board executes the command of a task; `good` is whether a grab's frame is intact. */
  function Ran(g: Gui, i: id, cmd: Command, good: bool): Gui
    requires i in g.tasks && g.tasks[i].t < |g.boards|
  {
    var b := g.boards[g.tasks[i].t];
    match g.tasks[i]
    case SendingOn(t, cfg, next, _) =>
      var r := After(b, StreamOn(cfg));
      Put(OnBoard(g, t, r.1), i, SendingOn(t, cfg, next, Some(r.0)))
    case SendingDac(t, next, _) => Put(OnBoard(g, t, After(b, cmd).1), i, SendingDac(t, next, true))
    case Grabbing(t, _) => Put(OnBoard(g, t, AfterGrab(b)), i, Grabbing(t, Some(good && b.chainOn)))
    case SendingOff(t, _) => Put(OnBoard(g, t, After(b, StreamOff).1), i, SendingOff(t, true))
    case BufOff(t, _) => Put(OnBoard(g, t, After(b, StreamOff).1), i, BufOff(t, true))
    case SendingBuf(t, _) => Put(OnBoard(g, t, After(b, cmd).1), i, SendingBuf(t, true))
    case SendingCommands(t, _) => Put(OnBoard(g, t, After(b, cmd).1), i, SendingCommands(t, true))
    case ClosingOff(t, _) => Put(OnBoard(g, t, After(b, StreamOff).1), i, ClosingOff(t, true))
    case Closing(t, _) => Put(g, i, Closing(t, true))
    case _ => g
  }

  /** After the stream runs: DAC commands while there are more, then what follows. */
  function Onward(g: Gui, i: id, t: nat, next: Next, more: bool): Gui {
    if more then Put(g, i, WantDac(t, next))
    else if next.ThenGrab? then Put(g, i, WantGrab(t))
    else Drop(g, i)
  }

  /** The command's await returns: the lock is released (or kept for the next
      command), and the code runs on to the next await or the task's end. */
  function Resumed(g: Gui, i: id, more: bool, crash: bool): Gui
    requires i in g.tasks
  {
    var free := g.(lock := None);
    match g.tasks[i]
    case SendingOn(t, cfg, next, reply) =>
      if reply == Some(true) then Onward(free.(acq := Some(cfg)), i, t, next, more)
      else Drop(free.(busy := if next.ThenGrab? then false else g.busy), i)
    case SendingDac(t, next, _) => Onward(free, i, t, next, more)
    case Grabbing(t, reply) =>
      Drop(free.(busy := false, acq := if reply == Some(true) && !crash then g.acq else None), i)
    case SendingOff(t, _) => Drop(free.(acq := None), i)
    case BufOff(t, _) => Put(g.(acq := None), i, SendingBuf(t, false))
    case SendingBuf(t, _) => Drop(free, i)
    case SendingCommands(t, _) => if more then Put(g, i, SendingCommands(t, false)) else Drop(free, i)
    case ClosingOff(t, _) => Put(g.(target := None), i, Closing(t, false))
    case Closing(t, _) => Drop(free.(acq := None), i)
    case _ => g
  }

  function Step(g: Gui, a: Action): Gui
    requires Enabled(g, a)
  {
    match a
    case Forget => g.(acq := None)
    case Connect(board) => g.(boards := g.boards + [board], target := Some(|g.boards|), acq := None)
    case Wake(i) => Put(g, i, WantBuf(g.tasks[i].t))
    case Acquire(i) => Taken(g, i)
    case Execute(i, cmd, good) => Ran(g, i, cmd, good)
    case Resume(i, more, crash) => Resumed(g, i, more, crash)
    case _ => Start(g, a)
  }

  predicate Possible(g: Gui, run: seq<Action>)
    decreases |run|
  {
    run == [] || (Enabled(g, run[0]) && Possible(Step(g, run[0]), run[1..]))
  }

  /** All states of a run, the first one included. */
  function States(g: Gui, run: seq<Action>): (s: seq<Gui>)
    requires Possible(g, run)
    ensures |s| == |run| + 1 && s[0] == g
    decreases |run|
  {
    if run == [] then [g] else [g] + States(Step(g, run[0]), run[1..])
  }

  const START := Gui([], None, None, false, None, map[])
}
