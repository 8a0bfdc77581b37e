/** What the GUI's tasks send before they change the buffer or close the port
    (tools/adc_gui.py): a stream the client believes in is stopped first. */
module StopsFirst {
  import opened Common
  import opened FakeTarget
  import opened StreamBelief
  import opened BeliefSound

  // ------------------------------------------------------------------------
  // Places in a run
  // ------------------------------------------------------------------------

  /** The state after k actions. */
  function At(run: seq<Action>, k: nat): Gui
    requires Possible(START, run) && k <= |run|
  {
    States(START, run)[k]
  }

  lemma {:induction false} StatesFollow(g: Gui, run: seq<Action>, k: nat)
    requires Possible(g, run) && k < |run|
    ensures Enabled(States(g, run)[k], run[k])
    ensures States(g, run)[k + 1] == Step(States(g, run)[k], run[k])
    decreases |run|
  {
    hide Step, Enabled;
    if k > 0 { StatesFollow(Step(g, run[0]), run[1..], k - 1); }
  }

  lemma {:induction false} WellFormed(run: seq<Action>, k: nat)
    requires Possible(START, run) && k <= |run|
    ensures LockInv(At(run, k)) && TargetsInv(At(run, k))
  {
    if k > 0 {
      hide Step, Enabled, States, LockInv, TargetsInv;
      WellFormed(run, k - 1);
      StatesFollow(START, run, k - 1);
      StepKeepsLock(At(run, k - 1), run[k - 1]);
      StepKeepsTargets(At(run, k - 1), run[k - 1]);
    }
  }

  // ------------------------------------------------------------------------
  // A task that holds the lock
  // ------------------------------------------------------------------------

  /** What others do meanwhile. */
  lemma OthersStep(g: Gui, a: Action, i: id)
    requires Enabled(g, a) && LockInv(g) && TargetsInv(g) && g.lock == Some(i)
    requires !(a.Execute? && a.i == i) && !(a.Resume? && a.i == i)
    ensures var h := Step(g, a);
            && h.lock == g.lock && i in h.tasks && h.tasks[i] == g.tasks[i] && g.boards <= h.boards
            && (h.acq == g.acq || h.acq.None?)
    ensures !a.Execute? && !a.Acquire?
  {
    hide After, AfterGrab, InCycle;
  }

  /** A task that is to send "stream off" first. */
  predicate StopsNow(g: Gui, i: id, t: nat, b: Board) {
    && LockInv(g) && TargetsInv(g) && g.lock == Some(i) && i in g.tasks && t < |g.boards| && g.boards[t] == b
    && (g.tasks[i] == BufOff(t, false) || g.tasks[i] == ClosingOff(t, false))
  }

  lemma StopsNowStep(g: Gui, a: Action, i: id, t: nat, b: Board)
    requires Enabled(g, a) && StopsNow(g, i, t, b) && !a.Execute?
    ensures StopsNow(Step(g, a), i, t, b)
  {
    assert !(a.Resume? && a.i == i);
    OthersStep(g, a, i);
    StepKeepsLock(g, a);
    StepKeepsTargets(g, a);
    hide Step, Enabled, LockInv, TargetsInv;
  }

  /** Task i wants the buffer changed, or the port closed, takes the lock with action k and believes in a stream. */
  predicate TakesBelieving(run: seq<Action>, k: nat, i: id) {
    && Possible(START, run) && k < |run| && run[k] == Acquire(i)
    && i in At(run, k).tasks && (At(run, k).tasks[i].WantBuf? || At(run, k).tasks[i].WantClose?)
    && At(run, k).acq.Some?
  }

  lemma TakenBelieving(run: seq<Action>, k: nat, i: id)
    requires TakesBelieving(run, k, i)
    ensures var g := At(run, k); var t := g.tasks[i].t;
            t < |g.boards| && StopsNow(At(run, k + 1), i, t, g.boards[t])
  {
    hide States, Possible;
    StatesFollow(START, run, k);
    WellFormed(run, k);
    WellFormed(run, k + 1);
    hide LockInv;
  }

  lemma {:induction false} StopsUntil(run: seq<Action>, k: nat, m: nat, i: id)
    requires TakesBelieving(run, k, i) && k < m <= |run|
    requires forall l :: k < l < m ==> !run[l].Execute?
    ensures var g := At(run, k); var t := g.tasks[i].t;
            t < |g.boards| && StopsNow(At(run, m), i, t, g.boards[t])
  {
    hide TakesBelieving, StopsNow, Step, Enabled, States, Possible;
    TakenBelieving(run, k, i);
    TakesPlace(run, k, i);
    if m > k + 1 {
      StopsUntil(run, k, m - 1, i);
      StatesFollow(START, run, m - 1);
      var g := At(run, k);
      StopsNowStep(At(run, m - 1), run[m - 1], i, g.tasks[i].t, g.boards[g.tasks[i].t]);
    }
  }

  lemma TakesPlace(run: seq<Action>, k: nat, i: id)
    requires TakesBelieving(run, k, i)
    ensures Possible(START, run) && k < |run| && i in At(run, k).tasks && At(run, k).tasks[i].t < |At(run, k).boards|
  {
    WellFormed(run, k);
  }

  /** Over every run: a task that is to change the buffer or close the port, and
      takes the lock while the client believes in a stream, has its board
      execute "stream off" before anything else is executed. */
  lemma StreamOffFirst(run: seq<Action>, k: nat, m: nat, i: id)
    requires TakesBelieving(run, k, i) && k < m < |run| && run[m].Execute?
    requires forall l :: k < l < m ==> !run[l].Execute?
    ensures var t := At(run, k).tasks[i].t;
            && run[m].i == i && t < |At(run, k).boards| && t < |At(run, m).boards|
            && At(run, m).boards[t] == At(run, k).boards[t]
            && At(run, m + 1).boards == At(run, m).boards[t := After(At(run, m).boards[t], StreamOff).1]
            && !At(run, m + 1).boards[t].chainOn
  {
    TakesPlace(run, k, i);
    StopsUntil(run, k, m, i);
    StatesFollow(START, run, m);
    hide TakesBelieving, States, Possible;
    var g, a := At(run, m), run[m];
    assert Holds(g.tasks[a.i]);
    assert a.i == i;
  }

  // ------------------------------------------------------------------------
  // The buffer's size and the port's end
  // ------------------------------------------------------------------------

  /** After the lock was taken, with `believed` whether a stream was believed in
      then, and `on` whether the board streamed. */
  predicate Phase(g: Gui, i: id, t: nat, on: bool, believed: bool) {
    && g.lock == Some(i) && i in g.tasks && t < |g.boards|
    && match g.tasks[i]
       case BufOff(u, done) => u == t && believed && (done ==> !g.boards[t].chainOn)
       case ClosingOff(u, done) => u == t && believed && (done ==> !g.boards[t].chainOn)
       case SendingOff(u, done) => u == t && (done ==> !g.boards[t].chainOn)
       case SendingBuf(u, done) => u == t && g.acq.None? && (done || g.boards[t].chainOn == (on && !believed))
       case Closing(u, _) => u == t && g.boards[t].chainOn == (on && !believed)
       case _ => false
  }

  lemma PhaseExecutes(g: Gui, a: Action, i: id, t: nat, on: bool, believed: bool)
    requires Enabled(g, a) && a.Execute? && a.i == i && Phase(g, i, t, on, believed)
    ensures Phase(Step(g, a), i, t, on, believed)
  {
    hide AfterGrab;
  }

  lemma PhaseResumes(g: Gui, a: Action, i: id, t: nat, on: bool, believed: bool)
    requires Enabled(g, a) && a.Resume? && a.i == i && Phase(g, i, t, on, believed)
    ensures var h := Step(g, a); h.lock.None? || Phase(h, i, t, on, believed)
  {
    hide After, AfterGrab, InCycle;
  }

  lemma PhaseStep(g: Gui, a: Action, i: id, t: nat, on: bool, believed: bool)
    requires Enabled(g, a) && LockInv(g) && TargetsInv(g) && Phase(g, i, t, on, believed)
    ensures var h := Step(g, a); h.lock.None? || Phase(h, i, t, on, believed)
  {
    if a.Execute? && a.i == i {
      PhaseExecutes(g, a, i, t, on, believed);
    } else if a.Resume? && a.i == i {
      PhaseResumes(g, a, i, t, on, believed);
    } else {
      OthersStep(g, a, i);
      hide Step, Enabled, LockInv, TargetsInv;
    }
  }

  lemma FreeStays(g: Gui, a: Action)
    requires Enabled(g, a) && LockInv(g) && g.lock.None? && !a.Acquire?
    ensures Step(g, a).lock.None?
  {
    hide After, AfterGrab, InCycle;
  }

  /** Task i wants the stream stopped, the buffer changed or the port closed, and takes the lock with action k. */
  predicate Takes(run: seq<Action>, k: nat, i: id) {
    && Possible(START, run) && k < |run| && run[k] == Acquire(i) && i in At(run, k).tasks
    && (At(run, k).tasks[i].WantOff? || At(run, k).tasks[i].WantBuf? || At(run, k).tasks[i].WantClose?)
  }

  lemma TakenPlace(run: seq<Action>, k: nat, i: id)
    requires Takes(run, k, i)
    ensures At(run, k).tasks[i].t < |At(run, k).boards|
  {
    WellFormed(run, k);
  }

  lemma TakenPhase(run: seq<Action>, k: nat, i: id)
    requires Takes(run, k, i)
    ensures var g := At(run, k); var t := g.tasks[i].t;
            t < |g.boards| && Phase(At(run, k + 1), i, t, g.boards[t].chainOn, g.acq.Some?)
  {
    TakenPlace(run, k, i);
    hide States, Possible;
    StatesFollow(START, run, k);
  }

  lemma {:induction false} PhaseUntil(run: seq<Action>, k: nat, m: nat, i: id)
    requires Takes(run, k, i) && k < m <= |run|
    requires forall l :: k < l < m ==> !run[l].Acquire?
    ensures var g := At(run, k); var t := g.tasks[i].t;
            && t < |g.boards|
            && (At(run, m).lock.None? || Phase(At(run, m), i, t, g.boards[t].chainOn, g.acq.Some?))
  {
    TakenPlace(run, k, i);
    if m == k + 1 {
      TakenPhase(run, k, i);
    } else {
      PhaseUntil(run, k, m - 1, i);
      StatesFollow(START, run, m - 1);
      WellFormed(run, m - 1);
      hide Step, Enabled, States, Possible, Phase, LockInv, TargetsInv;
      var g, t := At(run, k), At(run, k).tasks[i].t;
      if At(run, m - 1).lock.None? {
        FreeStays(At(run, m - 1), run[m - 1]);
      } else {
        PhaseStep(At(run, m - 1), run[m - 1], i, t, g.boards[t].chainOn, g.acq.Some?);
      }
    }
  }

  /** Over every run: when a buffer task's command is executed, the client
      believes in no stream, and its board streams exactly if it streamed
      unknown to the client when the task took the lock. */
  lemma BufMeetsStreamIff(run: seq<Action>, k: nat, m: nat, i: id)
    requires Takes(run, k, i) && k < m < |run| && (forall l :: k < l < m ==> !run[l].Acquire?)
    requires run[m].Execute? && run[m].i == i && i in At(run, m).tasks && At(run, m).tasks[i].SendingBuf?
    ensures var g, t := At(run, k), At(run, k).tasks[i].t;
            && At(run, m).acq == None && t < |g.boards| && t < |At(run, m).boards|
            && (At(run, m).boards[t].chainOn <==> g.acq == None && g.boards[t].chainOn)
  {
    PhaseUntil(run, k, m, i);
    WellFormed(run, m);
    StatesFollow(START, run, m);
    hide States, Possible;
  }

  /** The size asked for, between 16 samples a half and the board's most, is set exactly if not. */
  lemma SizeSetIff(run: seq<Action>, k: nat, m: nat, i: id, half: int)
    requires Takes(run, k, i) && k < m < |run| && (forall l :: k < l < m ==> !run[l].Acquire?)
    requires i in At(run, m).tasks && At(run, m).tasks[i].SendingBuf?
    requires run[m].Execute? && run[m].i == i && run[m].cmd == Buf(Some(half))
    requires var t := At(run, k).tasks[i].t;
             t < |At(run, m).boards| && 16 <= half <= At(run, m).boards[t].bufHalfMax && half % 2 == 0
    ensures var g, t := At(run, k), At(run, k).tasks[i].t;
            && t < |g.boards| && t < |At(run, m + 1).boards|
            && At(run, m + 1).boards[t].bufSize
               == if g.acq == None && g.boards[t].chainOn then At(run, m).boards[t].bufSize else 2 * half
  {
    BufMeetsStreamIff(run, k, m, i);
    PhaseUntil(run, k, m, i);
    WellFormed(run, m);
    StatesFollow(START, run, m);
    hide States, Possible;
  }

  /** Over every run: when the port is closed, its board still streams exactly
      if it streamed unknown to the client when the lock was taken. */
  lemma ClosedStreamingIff(run: seq<Action>, k: nat, m: nat, i: id)
    requires Takes(run, k, i) && k < m < |run| && (forall l :: k < l < m ==> !run[l].Acquire?)
    requires run[m].Execute? && run[m].i == i && i in At(run, m).tasks && At(run, m).tasks[i].Closing?
    ensures var g, t := At(run, k), At(run, k).tasks[i].t;
            && t < |g.boards| && t < |At(run, m).boards|
            && (At(run, m).boards[t].chainOn <==> g.acq == None && g.boards[t].chainOn)
  {
    PhaseUntil(run, k, m, i);
    WellFormed(run, m);
    StatesFollow(START, run, m);
    hide States, Possible;
  }

  /** Over every run: when a stop returns, its board streams no more and the client believes in no stream. */
  lemma StopStops(run: seq<Action>, k: nat, m: nat, i: id)
    requires Takes(run, k, i) && k < m < |run| && (forall l :: k < l < m ==> !run[l].Acquire?)
    requires run[m].Resume? && run[m].i == i && i in At(run, m).tasks && At(run, m).tasks[i].SendingOff?
    ensures var t := At(run, k).tasks[i].t;
            t < |At(run, m + 1).boards| && !At(run, m + 1).boards[t].chainOn && At(run, m + 1).acq == None
  {
    PhaseUntil(run, k, m, i);
    WellFormed(run, m);
    StatesFollow(START, run, m);
    hide States, Possible;
  }

  // ------------------------------------------------------------------------
  // What a task begins with
  // ------------------------------------------------------------------------

  lemma {:induction false} CyclesAt(run: seq<Action>, k: nat)
    requires Possible(START, run) && k <= |run|
    ensures CycleInv(At(run, k))
  {
    hide CycleInv, LockInv;
    OneCycleAtATime(run);
  }

  lemma MovesToNoBuf(g: Gui, a: Action, i: id)
    requires Enabled(g, a) && (a.Acquire? || a.Execute? || a.Resume?) && i in Step(g, a).tasks
    requires !(i in g.tasks && g.tasks[i].WantBuf?)
    ensures !Step(g, a).tasks[i].WantBuf?
  {
    hide After, AfterGrab, InCycle;
  }

  lemma OnlyWakes(g: Gui, a: Action, i: id)
    requires Enabled(g, a) && i in Step(g, a).tasks && Step(g, a).tasks[i].WantBuf?
    requires !(i in g.tasks && g.tasks[i].WantBuf?)
    ensures a == Wake(i) && !g.busy
  {
    hide Taken, Ran, Resumed, InCycle;
    if a.Acquire? || a.Execute? || a.Resume? { MovesToNoBuf(g, a, i); }
  }

  /** Over every run: a buffer task goes for the lock only while no cycle is under way. */
  lemma BufferWaits(run: seq<Action>, k: nat, i: id)
    requires Possible(START, run) && k < |run|
    requires i in At(run, k + 1).tasks && At(run, k + 1).tasks[i].WantBuf?
    requires !(i in At(run, k).tasks && At(run, k).tasks[i].WantBuf?)
    ensures forall j :: j in At(run, k).tasks ==> !InCycle(At(run, k).tasks[j])
  {
    StatesFollow(START, run, k);
    CyclesAt(run, k);
    hide States, Possible, Step, Enabled, InCycle;
    OnlyWakes(At(run, k), run[k], i);
  }

  lemma OtherMoves(g: Gui, a: Action, i: id)
    requires Enabled(g, a) && i in g.tasks && (a.Acquire? || a.Execute? || a.Resume?) && a.i != i
    ensures var h := Step(g, a); i in h.tasks && h.tasks[i] == g.tasks[i]
  {
    hide After, AfterGrab, InCycle;
  }

  lemma OtherTask(g: Gui, a: Action, i: id)
    requires Enabled(g, a) && i in g.tasks && (a.Forget? || a.Connect? || a.i != i)
    ensures var h := Step(g, a); i in h.tasks && h.tasks[i] == g.tasks[i]
  {
    hide Taken, Ran, Resumed, InCycle;
    if a.Acquire? || a.Execute? || a.Resume? { OtherMoves(g, a, i); }
  }

  /** A task on its way to its board's first command: a grab if the client believes in its input, else a stream. */
  predicate Begins(g: Gui, i: id, t: nat, cfg: Config, known: bool) {
    && i in g.tasks
    && if known then g.tasks[i] == WantGrab(t) || g.tasks[i] == Grabbing(t, None)
       else (g.tasks[i].WantOn? && g.tasks[i].t == t && g.tasks[i].cfg == cfg)
            || (g.tasks[i].SendingOn? && g.tasks[i].t == t && g.tasks[i].cfg == cfg && g.tasks[i].reply == None)
  }

  lemma BeginsStep(g: Gui, a: Action, i: id, t: nat, cfg: Config, known: bool)
    requires Enabled(g, a) && Begins(g, i, t, cfg, known) && !(a.Execute? && a.i == i)
    ensures Begins(Step(g, a), i, t, cfg, known)
  {
    if a.Forget? || a.Connect? || a.i != i { OtherTask(g, a, i); }
    hide After, AfterGrab, InCycle;
  }

  /** The action starts task i, a cycle or the making sure of a stream, with the input `cfg`. */
  predicate Begun(run: seq<Action>, k: nat, i: id, cfg: Config) {
    && Possible(START, run) && k < |run| && (run[k] == StartCycle(i, cfg) || run[k] == StartEnsure(i, cfg))
    && i in At(run, k + 1).tasks
  }

  lemma BegunBegins(run: seq<Action>, k: nat, i: id, cfg: Config)
    requires Begun(run, k, i, cfg)
    ensures At(run, k).target.Some?
    ensures Begins(At(run, k + 1), i, At(run, k).target.value, cfg, At(run, k).acq == Some(cfg))
  {
    StatesFollow(START, run, k);
    hide States, Possible;
  }

  lemma {:induction false} BeginsUntil(run: seq<Action>, k: nat, m: nat, i: id, cfg: Config)
    requires Begun(run, k, i, cfg) && k < m <= |run|
    requires forall l :: k < l < m ==> !(run[l].Execute? && run[l].i == i)
    ensures At(run, k).target.Some?
    ensures Begins(At(run, m), i, At(run, k).target.value, cfg, At(run, k).acq == Some(cfg))
  {
    BegunBegins(run, k, i, cfg);
    if m > k + 1 {
      BeginsUntil(run, k, m - 1, i, cfg);
      StatesFollow(START, run, m - 1);
      hide Begins, Step, Enabled, States, Possible;
      BeginsStep(At(run, m - 1), run[m - 1], i, At(run, k).target.value, cfg, At(run, k).acq == Some(cfg));
    }
  }

  /** Over every run: the first thing a cycle's board executes for it is "stream
      on" with the cycle's input, unless the client believed in exactly that
      input when the cycle started; then it is the grab. */
  lemma StreamOnFirst(run: seq<Action>, k: nat, m: nat, i: id, cfg: Config)
    requires Begun(run, k, i, cfg) && k < m < |run| && run[m].Execute? && run[m].i == i
    requires forall l :: k < l < m ==> !(run[l].Execute? && run[l].i == i)
    ensures At(run, k).target.Some?
    ensures var t, g := At(run, k).target.value, At(run, m);
            && t < |g.boards|
            && At(run, m + 1).boards
               == g.boards[t := if At(run, k).acq == Some(cfg) then AfterGrab(g.boards[t])
                                else After(g.boards[t], StreamOn(cfg)).1]
  {
    BeginsUntil(run, k, m, i, cfg);
    StatesFollow(START, run, m);
    WellFormed(run, m);
    hide States, Possible, LockInv, After, AfterGrab;
  }

  // ------------------------------------------------------------------------
  // A stream the client forgot
  // ------------------------------------------------------------------------

  function Last(g: Gui, run: seq<Action>): Gui
    requires Possible(g, run)
    decreases |run|
  {
    if run == [] then g else Last(Step(g, run[0]), run[1..])
  }

  predicate Leads(g: Gui, run: seq<Action>, h: Gui) { Possible(g, run) && Last(g, run) == h }

  lemma First(g: Gui, a: Action, h: Gui, rest: seq<Action>, last: Gui)
    requires Enabled(g, a) && Step(g, a) == h && Leads(h, rest, last)
    ensures Leads(g, [a] + rest, last)
  {
    hide Step, Enabled;
    var run := [a] + rest;
    assert run[0] == a && run[1..] == rest;
  }

  /** The board streams the test input, and the client believes `acq`. */
  function Streams(acq: Option<Config>, lock: Option<id>, tasks: map<id, Task>): Gui {
    Gui([OldOn()], Some(0), acq, false, lock, tasks)
  }

  const BUF := Execute(1, Buf(Some(512)), true)

  /** A stream is started and forgotten. */
  function StartAndForget(rest: seq<Action>): seq<Action> {
    [Connect(IDLE)] + ([StartEnsure(0, CFG)] + ([Acquire(0)] + ([Execute(0, SiggenOff, true)]
      + ([Resume(0, false, false)] + ([Forget] + rest)))))
  }

  /** The button that asks for 512 samples a half. */
  function AskForBuf(): seq<Action> { [StartBuf(1)] + ([Wake(1)] + ([Acquire(1)] + ([BUF] + []))) }

  /** One action. */
  predicate Goes(g: Gui, a: Action, h: Gui) { Enabled(g, a) && Step(g, a) == h }

  lemma StartGoes()
    ensures var g1, g2 := Connected(), Connected().(tasks := map[0 := ON]);
            var g3 := g1.(lock := Some(0), tasks := map[0 := SendingOn(0, CFG, ThenDone, None)]);
            Goes(START, Connect(IDLE), g1) && Goes(g1, StartEnsure(0, CFG), g2) && Goes(g2, Acquire(0), g3)
  {
    Connects();
    hide After;
  }

  lemma ForgetGoes()
    ensures var g4, g5 := Streams(None, Some(0), map[0 := REPLIED]), Streams(Some(CFG), None, map[]);
            Goes(g4, Resume(0, false, false), g5) && Goes(g5, Forget, Streams(None, None, map[]))
  {
    hide OldOn, After;
    assert Streams(None, Some(0), map[0 := REPLIED]).tasks - {0} == map[];
  }

  lemma Chained(g: Gui, a: Action, h: Gui, rest: seq<Action>, last: Gui)
    requires Goes(g, a, h) && Leads(h, rest, last)
    ensures Leads(g, [a] + rest, last)
  {
    First(g, a, h, rest, last);
  }

  lemma StreamStarts(rest: seq<Action>, last: Gui)
    requires Leads(Streams(None, None, map[]), rest, last)
    ensures Leads(START, StartAndForget(rest), last)
  {
    var g1 := Connected();
    var g2 := g1.(tasks := map[0 := ON]);
    var g3 := g1.(lock := Some(0), tasks := map[0 := SendingOn(0, CFG, ThenDone, None)]);
    var g4, g5 := Streams(None, Some(0), map[0 := REPLIED]), Streams(Some(CFG), None, map[]);
    StartGoes();
    OnStep(g3, g4);
    ForgetGoes();
    assert Goes(g3, Execute(0, SiggenOff, true), g4);
    hide Leads, Goes, Step, Enabled, Streams, Connected;
    Chained(g5, Forget, Streams(None, None, map[]), rest, last);
    var r1 := [Forget] + rest;
    Chained(g4, Resume(0, false, false), g5, r1, last);
    var r2 := [Resume(0, false, false)] + r1;
    Chained(g3, Execute(0, SiggenOff, true), g4, r2, last);
    var r3 := [Execute(0, SiggenOff, true)] + r2;
    Chained(g2, Acquire(0), g3, r3, last);
    Chained(g1, StartEnsure(0, CFG), g2, [Acquire(0)] + r3, last);
    Chained(START, Connect(IDLE), g1, [StartEnsure(0, CFG)] + ([Acquire(0)] + r3), last);
  }

  lemma OnStep(g: Gui, h: Gui)
    requires g == Connected().(lock := Some(0), tasks := map[0 := SendingOn(0, CFG, ThenDone, None)])
    requires h == Streams(None, Some(0), map[0 := REPLIED])
    ensures var a := Execute(0, SiggenOff, true); Enabled(g, a) && Step(g, a) == h
  {
    StreamOnReply(IDLE, CFG);
    assert After(IDLE, StreamOn(CFG)).0;
    hide After;
    assert [IDLE][0 := OldOn()] == [OldOn()];
  }

  lemma BufSent()
    ensures Leads(Streams(None, None, map[]), AskForBuf(), Streams(None, Some(1), map[1 := SendingBuf(0, true)]))
  {
    var last := Streams(None, Some(1), map[1 := SendingBuf(0, true)]);
    var g1 := Streams(None, None, map[1 := BufWaiting(0)]);
    var g2 := Streams(None, None, map[1 := WantBuf(0)]);
    var g3 := Streams(None, Some(1), map[1 := SendingBuf(0, false)]);
    assert After(OldOn(), Buf(Some(512))).1 == OldOn();
    assert [OldOn()][0 := OldOn()] == [OldOn()];
    hide OldOn, After;
    assert Leads(last, [], last);
    First(g3, BUF, last, [], last);
    hide Leads;
    First(g2, Acquire(1), g3, [BUF] + [], last);
    First(g1, Wake(1), g2, [Acquire(1)] + ([BUF] + []), last);
    First(Streams(None, None, map[]), StartBuf(1), g1, [Wake(1)] + ([Acquire(1)] + ([BUF] + [])), last);
  }

  /** The client forgets a running stream, as the DAC card's "auto" makes it do,
      and asks for 512 samples a half: the board streams, refuses and keeps its 4096. */
  lemma ForgottenStreamKeepsSize()
    ensures exists run: seq<Action> ::
              && Possible(START, run) && run != [] && run[|run| - 1] == BUF
              && At(run, |run|).boards == [OldOn()] && OldOn().chainOn && OldOn().bufSize == 4096
              && OldOn().bufHalfMax == 1024
  {
    var run, last := StartAndForget(AskForBuf()), Streams(None, Some(1), map[1 := SendingBuf(0, true)]);
    BufSent();
    OldOnIs();
    EndsInBuf();
    hide OldOn, States, Possible, Last, Step, Enabled, After, Leads, StartAndForget, AskForBuf;
    StreamStarts(AskForBuf(), last);
    LeadsTo(run, last);
  }

  lemma EndsInBuf()
    ensures var run := StartAndForget(AskForBuf()); run != [] && run[|run| - 1] == BUF
  {
    var run := StartAndForget(AskForBuf());
    assert |AskForBuf()| == 4 && AskForBuf()[3] == BUF;
    assert |run| == 10 && run[6..] == AskForBuf();
    hide StartAndForget, AskForBuf;
    assert run[9] == run[6..][3];
  }

  lemma LeadsTo(run: seq<Action>, h: Gui)
    requires Leads(START, run, h)
    ensures Possible(START, run) && At(run, |run|) == h
  {
    hide Possible, States, Last;
    LastIs(START, run);
  }

  lemma OldOnIs()
    ensures OldOn().chainOn && OldOn().bufSize == 4096 && OldOn().bufHalfMax == 1024
  {
    StreamOnReply(IDLE, CFG);
  }

  lemma {:induction false} LastIs(g: Gui, run: seq<Action>)
    requires Possible(g, run)
    ensures States(g, run)[|run|] == Last(g, run)
    decreases |run|
  {
    hide Step, Enabled;
    if run != [] { LastIs(Step(g, run[0]), run[1..]); }
  }
}
