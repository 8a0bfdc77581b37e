/** What holds over every run of the GUI's tasks: one cycle at a time, and the
    client's belief about the stream is true whenever the port is free, as long
    as no "stream on" to an old board comes back after another one was connected. */
module BeliefSound {
  import opened Common
  import opened FakeTarget
  import opened StreamBelief

  // ------------------------------------------------------------------------
  // One holder, one cycle
  // ------------------------------------------------------------------------

  predicate LockInv(g: Gui) {
    && (forall i :: i in g.tasks && Holds(g.tasks[i]) ==> g.lock == Some(i))
    && (g.lock.Some? ==> g.lock.value in g.tasks && Holds(g.tasks[g.lock.value]))
  }

  predicate TargetsInv(g: Gui) {
    && (g.target.Some? ==> g.target.value < |g.boards|)
    && (forall i :: i in g.tasks ==> g.tasks[i].t < |g.boards|)
  }

  ghost predicate CycleInv(g: Gui) {
    && (g.busy <==> exists i :: i in g.tasks && InCycle(g.tasks[i]))
    && (forall i, j :: i in g.tasks && j in g.tasks && InCycle(g.tasks[i]) && InCycle(g.tasks[j]) ==> i == j)
  }

  lemma StartKeepsLock(g: Gui, a: Action)
    requires Enabled(g, a) && LockInv(g)
    requires a.StartCycle? || a.StartEnsure? || a.StartStop? || a.StartBuf? || a.StartCommands? || a.StartDisconnect?
    ensures LockInv(Start(g, a))
  {
  }

  lemma MoveKeepsLock(g: Gui, a: Action)
    requires Enabled(g, a) && LockInv(g) && (a.Acquire? || a.Execute?)
    ensures LockInv(Step(g, a))
  {
    hide After, AfterGrab, InCycle;
  }

  lemma ResumeKeepsLock(g: Gui, i: id, more: bool, crash: bool)
    requires Enabled(g, Resume(i, more, crash)) && LockInv(g)
    ensures LockInv(Resumed(g, i, more, crash))
  {
    hide InCycle;
  }

  lemma StepKeepsLock(g: Gui, a: Action)
    requires Enabled(g, a) && LockInv(g)
    ensures LockInv(Step(g, a))
  {
    hide After, AfterGrab, InCycle, Taken, Ran, Resumed, Start;
    match a
    case Acquire(i) => MoveKeepsLock(g, a);
    case Execute(i, cmd, good) => MoveKeepsLock(g, a);
    case Resume(i, more, crash) => ResumeKeepsLock(g, i, more, crash);
    case Forget =>
    case Connect(_) =>
    case Wake(_) =>
    case _ => StartKeepsLock(g, a);
  }

  lemma StartKeepsTargets(g: Gui, a: Action)
    requires Enabled(g, a) && TargetsInv(g)
    requires a.StartCycle? || a.StartEnsure? || a.StartStop? || a.StartBuf? || a.StartCommands? || a.StartDisconnect?
    ensures TargetsInv(Start(g, a)) && Start(g, a).boards == g.boards
  {
  }

  lemma MoveKeepsTargets(g: Gui, a: Action)
    requires Enabled(g, a) && TargetsInv(g) && (a.Acquire? || a.Resume? || a.Execute?)
    ensures TargetsInv(Step(g, a)) && |Step(g, a).boards| == |g.boards|
  {
    hide After, AfterGrab, InCycle;
    var k := g.tasks[a.i];
    assert k.t < |g.boards|;
  }

  lemma StepKeepsTargets(g: Gui, a: Action)
    requires Enabled(g, a) && TargetsInv(g)
    ensures TargetsInv(Step(g, a)) && |Step(g, a).boards| >= |g.boards|
  {
    hide After, AfterGrab, InCycle;
    match a
    case Acquire(i) => MoveKeepsTargets(g, a);
    case Execute(i, cmd, good) => MoveKeepsTargets(g, a);
    case Resume(i, more, crash) => MoveKeepsTargets(g, a);
    case Forget =>
    case Connect(_) =>
    case Wake(_) =>
    case _ => StartKeepsTargets(g, a);
  }

  /** A task that changes from one await to another inside the cycle, or outside it. */
  lemma CycleMoves(g: Gui, h: Gui, i: id, k: Task)
    requires CycleInv(g) && i in g.tasks && h.tasks == g.tasks[i := k] && h.busy == g.busy
    requires InCycle(k) == InCycle(g.tasks[i])
    ensures CycleInv(h)
  {
    hide InCycle;
    if g.busy {
      var c :| c in g.tasks && InCycle(g.tasks[c]);
      assert c in h.tasks && InCycle(h.tasks[c]);
    }
  }

  lemma CycleEnds(g: Gui, h: Gui, i: id)
    requires CycleInv(g) && i in g.tasks && h.tasks == g.tasks - {i}
    requires h.busy == if InCycle(g.tasks[i]) then false else g.busy
    ensures CycleInv(h)
  {
    hide InCycle;
    if h.busy {
      var c :| c in g.tasks && InCycle(g.tasks[c]);
      assert c in h.tasks && InCycle(h.tasks[c]);
    }
  }

  lemma CycleStarts(g: Gui, h: Gui, i: id, k: Task)
    requires CycleInv(g) && i !in g.tasks && h.tasks == g.tasks[i := k]
    requires if InCycle(k) then !g.busy && h.busy else h.busy == g.busy
    ensures CycleInv(h)
  {
    hide InCycle;
    if InCycle(k) {
      assert i in h.tasks && InCycle(h.tasks[i]);
    } else if h.busy {
      var c :| c in g.tasks && InCycle(g.tasks[c]);
      assert c in h.tasks && InCycle(h.tasks[c]);
    }
  }

  lemma ResumeKeepsCycle(g: Gui, i: id, more: bool, crash: bool)
    requires Enabled(g, Resume(i, more, crash)) && CycleInv(g)
    ensures CycleInv(Resumed(g, i, more, crash))
  {
    var h := Resumed(g, i, more, crash);
    hide CycleInv;
    if i in h.tasks {
      CycleMoves(g, h, i, h.tasks[i]);
    } else {
      CycleEnds(g, h, i);
    }
  }

  lemma StepKeepsCycle(g: Gui, a: Action)
    requires Enabled(g, a) && CycleInv(g)
    ensures CycleInv(Step(g, a))
  {
    var h := Step(g, a);
    match a
    case Resume(i, more, crash) => ResumeKeepsCycle(g, i, more, crash);
    case Acquire(i) => hide CycleInv; CycleMoves(g, h, i, h.tasks[i]);
    case Execute(i, cmd, good) => hide CycleInv; hide After; CycleMoves(g, h, i, h.tasks[i]);
    case Wake(i) => hide CycleInv; CycleMoves(g, h, i, h.tasks[i]);
    case Forget =>
    case Connect(_) =>
    case StartCycle(i, _) => StartKeepsCycle(g, a, i);
    case StartEnsure(i, _) => StartKeepsCycle(g, a, i);
    case StartStop(i) => StartKeepsCycle(g, a, i);
    case StartBuf(i) => StartKeepsCycle(g, a, i);
    case StartCommands(i) => StartKeepsCycle(g, a, i);
    case StartDisconnect(i) => StartKeepsCycle(g, a, i);
  }

  lemma StartKeepsCycle(g: Gui, a: Action, i: id)
    requires Enabled(g, a) && CycleInv(g)
    requires a.StartCycle? || a.StartEnsure? || a.StartStop? || a.StartBuf? || a.StartCommands? || a.StartDisconnect?
    requires i == a.i
    ensures CycleInv(Start(g, a))
  {
    var h := Start(g, a);
    if i in h.tasks {
      hide CycleInv;
      CycleStarts(g, h, i, h.tasks[i]);
    } else {
      assert h.tasks == g.tasks && h.busy == g.busy;
    }
  }

  // ------------------------------------------------------------------------
  // The belief
  // ------------------------------------------------------------------------

  /** The connected board streams what the client believes. */
  predicate Believed(g: Gui) {
    g.target.Some? && g.target.value < |g.boards| && g.acq.Some? ==>
      Streaming(g.boards[g.target.value]) == Some(Applied(g.acq.value))
  }

  predicate Sound(g: Gui) { g.lock.None? ==> Believed(g) }

  /** A task whose command has changed the stream, before the belief follows. */
  predicate Changing(k: Task) {
    match k
    case SendingOn(_, _, _, reply) => reply == Some(true)
    case SendingOff(_, done) => done
    case BufOff(_, done) => done
    case ClosingOff(_, done) => done
    case _ => false
  }

  predicate Started(g: Gui, k: Task)
    requires k.t < |g.boards|
  {
    k.SendingOn? && k.reply == Some(true) ==> Streaming(g.boards[k.t]) == Some(Applied(k.cfg))
  }

  predicate StartedInv(g: Gui)
    requires TargetsInv(g)
  {
    forall i :: i in g.tasks ==> Started(g, g.tasks[i])
  }

  predicate BeliefInv(g: Gui) {
    && LockInv(g) && TargetsInv(g) && StartedInv(g)
    && (g.lock.None? || !Changing(g.tasks[g.lock.value]) ==> Believed(g))
  }

  /** A "stream on" comes back while another board is connected: only harmless
      if that board streams the same already. */
  predicate Harmless(g: Gui, a: Action) {
    a.Resume? && a.i in g.tasks && g.tasks[a.i].SendingOn? && g.tasks[a.i].reply == Some(true)
    && g.target.Some? && g.target.value < |g.boards| && g.target.value != g.tasks[a.i].t ==>
      Streaming(g.boards[g.target.value]) == Some(Applied(g.tasks[a.i].cfg))
  }

  lemma StreamOnReply(b: Board, c: Config)
    ensures After(b, StreamOn(c)).0 ==> Streaming(After(b, StreamOn(c)).1) == Some(Applied(c))
    ensures !After(b, StreamOn(c)).0 ==> After(b, StreamOn(c)).1 == b
  {
    hide Applied, GoodInput;
  }

  /** What executing a command does to the streams. */
  lemma RanStreams(g: Gui, i: id, cmd: Command, good: bool)
    requires Enabled(g, Execute(i, cmd, good)) && TargetsInv(g)
    ensures var h := Ran(g, i, cmd, good); var t := g.tasks[i].t;
            && h.lock == g.lock && h.target == g.target && h.acq == g.acq
            && h.tasks.Keys == g.tasks.Keys && (forall j :: j in g.tasks && j != i ==> h.tasks[j] == g.tasks[j])
            && h.tasks[i].t == t && Holds(h.tasks[i])
            && |h.boards| == |g.boards| && (forall u :: 0 <= u < |g.boards| && u != t ==> h.boards[u] == g.boards[u])
            && (!Changing(h.tasks[i]) ==> Streaming(h.boards[t]) == Streaming(g.boards[t]))
            && Started(h, h.tasks[i])
  {
    hide After, AfterGrab, Applied, Streaming, IsStreamCommand;
    var b := g.boards[g.tasks[i].t];
    StreamUntouched(b, cmd);
    GrabKeepsStream(b);
    if g.tasks[i].SendingOn? { StreamOnReply(b, g.tasks[i].cfg); }
  }

  lemma GrabKeepsStream(b: Board)
    ensures Streaming(AfterGrab(b)) == Streaming(b)
  {
  }

  lemma ExecuteKeepsBelief(g: Gui, i: id, cmd: Command, good: bool)
    requires Enabled(g, Execute(i, cmd, good)) && BeliefInv(g)
    ensures BeliefInv(Ran(g, i, cmd, good))
  {
    var h := Ran(g, i, cmd, good);
    RanStreams(g, i, cmd, good);
    hide Ran, After, Streaming, Applied;
    NotYetChanging(g.tasks[i]);
    forall j | j in h.tasks ensures Started(h, h.tasks[j]) {
      if j != i { assert Started(g, g.tasks[j]) && !Holds(g.tasks[j]); }
    }
  }

  lemma NotYetChanging(k: Task)
    requires Holds(k) && !Executed(k)
    ensures !Changing(k)
  {
  }

  lemma TakenShape(g: Gui, i: id)
    requires Enabled(g, Acquire(i))
    ensures var h := Taken(g, i);
            && h.boards == g.boards && h.acq == g.acq && (h.target == g.target || h.target.None?) && h.lock == Some(i)
            && h.tasks.Keys == g.tasks.Keys && (forall j :: j in g.tasks && j != i ==> h.tasks[j] == g.tasks[j])
            && Fresh(h.tasks[i]) && h.tasks[i].t == g.tasks[i].t
  {
  }

  /** A task that has not changed the board's stream and got no reply. */
  predicate Fresh(k: Task) { !Changing(k) && !(k.SendingOn? && k.reply == Some(true)) }

  lemma AcquireKeepsBelief(g: Gui, i: id)
    requires Enabled(g, Acquire(i)) && BeliefInv(g)
    ensures BeliefInv(Taken(g, i))
  {
    TakenShape(g, i);
    StepKeepsLock(g, Acquire(i));
    StepKeepsTargets(g, Acquire(i));
    var h := Taken(g, i);
    hide Streaming, Applied, Taken, LockInv, Changing, Enabled;
    forall j | j in h.tasks ensures Started(h, h.tasks[j]) {
      if j != i { assert Started(g, g.tasks[j]); }
    }
  }

  lemma ResumedShape(g: Gui, i: id, more: bool, crash: bool)
    requires Enabled(g, Resume(i, more, crash))
    ensures var h := Resumed(g, i, more, crash); var k := g.tasks[i];
            && h.boards == g.boards && (h.target == g.target || h.target.None?)
            && (h.target.None? || h.acq.None? || (h.acq == g.acq && !Changing(k))
                || (k.SendingOn? && k.reply == Some(true) && h.acq == Some(k.cfg)))
            && (forall j :: j in h.tasks ==>
                  j in g.tasks && if j == i then Fresh(h.tasks[j]) else h.tasks[j] == g.tasks[j])
  {
  }

  lemma ResumeKeepsBelief(g: Gui, i: id, more: bool, crash: bool)
    requires Enabled(g, Resume(i, more, crash)) && BeliefInv(g) && Harmless(g, Resume(i, more, crash))
    ensures BeliefInv(Resumed(g, i, more, crash))
  {
    var h := Resumed(g, i, more, crash);
    ResumedShape(g, i, more, crash);
    StepKeepsLock(g, Resume(i, more, crash));
    StepKeepsTargets(g, Resume(i, more, crash));
    assert Started(g, g.tasks[i]) && g.lock == Some(i);
    hide Streaming, Applied, Resumed, LockInv, Changing, Enabled;
    forall j | j in h.tasks ensures Started(h, h.tasks[j]) {
      if j != i { assert Started(g, g.tasks[j]); }
    }
    assert Believed(h);
  }

  lemma StartKeepsBelief(g: Gui, a: Action)
    requires Enabled(g, a) && BeliefInv(g)
    requires a.StartCycle? || a.StartEnsure? || a.StartStop? || a.StartBuf? || a.StartCommands? || a.StartDisconnect?
    ensures BeliefInv(Start(g, a))
  {
    hide Streaming, Applied;
    var h := Start(g, a);
    StartKeepsLock(g, a);
    forall j | j in h.tasks ensures h.tasks[j].t < |h.boards| && Started(h, h.tasks[j]) {
      if j in g.tasks { assert Started(g, g.tasks[j]); }
    }
    assert h.lock == g.lock && (h.lock.Some? ==> h.tasks[h.lock.value] == g.tasks[h.lock.value]);
  }

  lemma StepKeepsBelief(g: Gui, a: Action)
    requires Enabled(g, a) && BeliefInv(g) && Harmless(g, a)
    ensures BeliefInv(Step(g, a))
  {
    hide Streaming, Applied, After;
    match a
    case Resume(i, more, crash) => ResumeKeepsBelief(g, i, more, crash);
    case Acquire(i) => AcquireKeepsBelief(g, i);
    case Execute(i, cmd, good) => ExecuteKeepsBelief(g, i, cmd, good);
    case Wake(i) => QuietKeepsBelief(g, Step(g, a));
    case Forget => QuietKeepsBelief(g, Step(g, a));
    case Connect(_) => QuietKeepsBelief(g, Step(g, a));
    case _ => StartKeepsBelief(g, a);
  }

  /** A step that leaves lock, holder and boards alone and at most forgets the belief. */
  lemma QuietKeepsBelief(g: Gui, h: Gui)
    requires BeliefInv(g) && LockInv(h) && TargetsInv(h)
    requires h.lock == g.lock && g.boards <= h.boards && h.tasks.Keys == g.tasks.Keys
    requires forall j :: j in g.tasks ==>
               h.tasks[j] == g.tasks[j] || (h.tasks[j].t == g.tasks[j].t && h.tasks[j].WantBuf?)
    requires forall j :: j in g.tasks && Holds(g.tasks[j]) ==> h.tasks[j] == g.tasks[j]
    requires h.acq.None? || (h.acq == g.acq && h.target == g.target)
    ensures BeliefInv(h)
  {
    hide Streaming, Applied;
    forall j | j in h.tasks ensures Started(h, h.tasks[j]) {
      assert Started(g, g.tasks[j]);
    }
  }

  // ------------------------------------------------------------------------
  // Over whole runs
  // ------------------------------------------------------------------------

  lemma {:induction false} CyclesFrom(g: Gui, run: seq<Action>)
    requires Possible(g, run) && CycleInv(g) && LockInv(g)
    ensures forall k :: 0 <= k < |States(g, run)| ==> CycleInv(States(g, run)[k]) && LockInv(States(g, run)[k])
    decreases |run|
  {
    hide CycleInv, LockInv, Step, Enabled;
    if run != [] {
      CycleStep(g, run);
      CyclesFrom(Step(g, run[0]), run[1..]);
    }
  }

  /** In every run, whatever connects and disconnects, at most one cycle is
      under way, `busy` says exactly whether there is one, and the port lock is
      held exactly by the task whose command runs. */
  lemma OneCycleAtATime(run: seq<Action>)
    requires Possible(START, run)
    ensures forall k :: 0 <= k < |States(START, run)| ==>
              CycleInv(States(START, run)[k]) && LockInv(States(START, run)[k])
  {
    CyclesFrom(START, run);
  }

  lemma CycleStep(g: Gui, run: seq<Action>)
    requires Possible(g, run) && run != [] && CycleInv(g) && LockInv(g)
    ensures Enabled(g, run[0]) && CycleInv(Step(g, run[0])) && LockInv(Step(g, run[0]))
  {
    hide CycleInv, LockInv, Step, Enabled;
    StepKeepsCycle(g, run[0]);
    StepKeepsLock(g, run[0]);
  }

  predicate AllHarmless(g: Gui, run: seq<Action>)
    requires Possible(g, run)
    decreases |run|
  {
    run == [] || (Harmless(g, run[0]) && AllHarmless(Step(g, run[0]), run[1..]))
  }

  /** Anything else than a harmless step leaves a wrong belief, with the port free. */
  lemma HarmBreaksBelief(g: Gui, a: Action)
    requires Enabled(g, a) && BeliefInv(g) && !Harmless(g, a)
    ensures !Sound(Step(g, a))
  {
    hide Streaming, Applied;
  }

  ghost predicate AllSound(g: Gui, run: seq<Action>)
    requires Possible(g, run)
  {
    forall k :: 0 <= k < |States(g, run)| ==> Sound(States(g, run)[k])
  }

  lemma AllSoundStep(g: Gui, run: seq<Action>)
    requires Possible(g, run) && run != []
    ensures Enabled(g, run[0]) && Possible(Step(g, run[0]), run[1..])
    ensures AllSound(g, run) <==> Sound(g) && AllSound(Step(g, run[0]), run[1..])
    ensures AllSound(g, run) ==> Sound(Step(g, run[0]))
  {
    hide Sound, Step, Enabled;
    var s, more := States(g, run), States(Step(g, run[0]), run[1..]);
    assert s == [g] + more && more[0] == Step(g, run[0]);
    assert forall k :: 0 <= k < |more| ==> s[k + 1] == more[k];
  }

  lemma {:induction false} SoundFrom(g: Gui, run: seq<Action>)
    requires Possible(g, run) && BeliefInv(g)
    ensures AllSound(g, run) <==> AllHarmless(g, run)
    decreases |run|
  {
    InvIsSound(g);
    hide BeliefInv, Sound, Step, Enabled, Harmless;
    if run != [] {
      AllSoundStep(g, run);
      if Harmless(g, run[0]) {
        StepKeepsBelief(g, run[0]);
        SoundFrom(Step(g, run[0]), run[1..]);
      } else {
        HarmBreaksBelief(g, run[0]);
      }
    }
  }

  lemma InvIsSound(g: Gui)
    requires BeliefInv(g)
    ensures Sound(g)
  {
  }

  /** From the start of the program, over every interleaving: the belief is true
      whenever the port is free and a board connected, if and only if no "stream
      on" comes back to a client that has another board by then. */
  lemma BeliefSoundIff(run: seq<Action>)
    requires Possible(START, run)
    ensures AllSound(START, run) <==> AllHarmless(START, run)
  {
    SoundFrom(START, run);
  }

  // ------------------------------------------------------------------------
  // When it holds
  // ------------------------------------------------------------------------

  predicate StartsStream(k: Task) { k.WantOn? || k.SendingOn? }

  /** No board is connected while a "stream on" is queued or sent. */
  predicate ConnectsApart(g: Gui, run: seq<Action>)
    requires Possible(g, run)
    decreases |run|
  {
    run == []
    || ((run[0].Connect? ==> forall i :: i in g.tasks ==> !StartsStream(g.tasks[i]))
        && ConnectsApart(Step(g, run[0]), run[1..]))
  }

  /** Every "stream on" under way is for the connected board, if there is one. */
  predicate OnCurrent(g: Gui) {
    forall i :: i in g.tasks && StartsStream(g.tasks[i]) && g.target.Some? ==> g.tasks[i].t == g.target.value
  }

  lemma StepKeepsCurrent(g: Gui, a: Action)
    requires Enabled(g, a) && TargetsInv(g) && OnCurrent(g)
    requires a.Connect? ==> forall i :: i in g.tasks ==> !StartsStream(g.tasks[i])
    ensures OnCurrent(Step(g, a))
  {
    hide After, AfterGrab, InCycle;
    match a
    case Acquire(i) =>
    case Execute(i, cmd, good) =>
    case Resume(i, more, crash) =>
    case Forget =>
    case Connect(_) =>
    case Wake(_) =>
    case _ => StartKeepsCurrent(g, a);
  }

  lemma StartKeepsCurrent(g: Gui, a: Action)
    requires Enabled(g, a) && OnCurrent(g)
    requires a.StartCycle? || a.StartEnsure? || a.StartStop? || a.StartBuf? || a.StartCommands? || a.StartDisconnect?
    ensures OnCurrent(Start(g, a))
  {
  }

  lemma {:induction false} HarmlessFrom(g: Gui, run: seq<Action>)
    requires Possible(g, run) && TargetsInv(g) && OnCurrent(g) && ConnectsApart(g, run)
    ensures AllHarmless(g, run)
    decreases |run|
  {
    hide Step, Enabled, TargetsInv;
    if run != [] {
      StepKeepsTargets(g, run[0]);
      StepKeepsCurrent(g, run[0]);
      HarmlessFrom(Step(g, run[0]), run[1..]);
    }
  }

  /** The belief is true throughout if boards are only connected while no "stream on" is queued or sent. */
  lemma ApartIsSound(run: seq<Action>)
    requires Possible(START, run) && ConnectsApart(START, run)
    ensures AllSound(START, run)
  {
    hide AllSound, AllHarmless, Possible, ConnectsApart;
    HarmlessFrom(START, run);
    BeliefSoundIff(run);
  }

  // ------------------------------------------------------------------------
  // When it does not
  // ------------------------------------------------------------------------

  predicate Waits(k: Task) { !Holds(k) && !k.BufWaiting? }

  /** Who waits for the lock after an action, in order: a task that begins to wait comes last. */
  function Waiting(g: Gui, waiting: seq<id>, a: Action): seq<id>
    requires Enabled(g, a)
  {
    var left, h := if a.Acquire? && waiting != [] then waiting[1..] else waiting, Step(g, a);
    if a.Forget? || a.Connect? || a.i !in h.tasks || !Waits(h.tasks[a.i]) || a.i in left then left else left + [a.i]
  }

  /** The port lock's order: it goes to the task that has waited longest, and
      a task that finds it free with nobody waiting takes it at once. */
  predicate Orderly(g: Gui, waiting: seq<id>, run: seq<Action>)
    requires Possible(g, run)
    decreases |run|
  {
    run == []
    || (var a, h, later := run[0], Step(g, run[0]), Waiting(g, waiting, run[0]);
        && (a.Acquire? ==> waiting != [] && waiting[0] == a.i)
        && (waiting == [] && later != [] && h.lock.None? && |run| > 1 ==> run[1] == Acquire(later[0]))
        && Orderly(h, later, run[1..]))
  }

  predicate Breaks(g: Gui, waiting: seq<id>, run: seq<Action>) {
    Possible(g, run) && Orderly(g, waiting, run) && !AllHarmless(g, run)
  }

  lemma BreaksNow(g: Gui, a: Action)
    requires Enabled(g, a) && !Harmless(g, a) && !a.Acquire?
    ensures Breaks(g, [], [a])
  {
    hide Step, Enabled, Harmless, Waiting;
    var run, h, later := [a], Step(g, a), Waiting(g, [], a);
    assert run[0] == a && run[1..] == [];
    NoneLeft(h, later);
    assert Possible(g, run);
    assert Orderly(g, [], run);
  }

  lemma NoneLeft(g: Gui, waiting: seq<id>)
    ensures Possible(g, []) && Orderly(g, waiting, [])
  {
  }

  /** One action, in the lock's order. */
  predicate Moves(g: Gui, waiting: seq<id>, a: Action, h: Gui, later: seq<id>) {
    && Enabled(g, a) && Step(g, a) == h && Waiting(g, waiting, a) == later
    && (a.Acquire? ==> waiting != [] && waiting[0] == a.i)
  }

  lemma BreaksLater(g: Gui, waiting: seq<id>, a: Action, h: Gui, later: seq<id>, rest: seq<Action>)
    requires Moves(g, waiting, a, h, later) && Breaks(h, later, rest)
    requires waiting != [] || later == [] || h.lock.Some? || (rest != [] && rest[0] == Acquire(later[0]))
    ensures Breaks(g, waiting, [a] + rest)
  {
    hide Step, Enabled, Harmless, Waiting;
    var run := [a] + rest;
    assert run[0] == a && run[1..] == rest;
    assert Possible(g, run);
    assert |run| > 1 ==> run[1] == rest[0];
    assert Orderly(g, waiting, run);
  }

  // While a command has the lock, a disconnect and then a DAC button wait for
  // it. The disconnect is next and closes the old board; the button's task
  // still sends its "stream on" there, and a new board is connected before
  // that comes back.

  const IDLE := Boot(1024)
  const CFG := TestInput(1000)
  const ON := WantOn(0, CFG, ThenDone)
  const REPLIED := SendingOn(0, CFG, ThenDone, Some(true))

  function OldOn(): Board { After(IDLE, StreamOn(CFG)).1 }

  function Connected(): Gui { Gui([IDLE], Some(0), None, false, None, map[]) }

  function Busy(done: bool): Gui {
    Gui([IDLE], Some(0), None, false, Some(0), map[0 := SendingCommands(0, done), 2 := WantClose(0), 1 := ON])
  }

  function Queued(): Gui { Gui([IDLE], Some(0), None, false, None, map[2 := WantClose(0), 1 := ON]) }

  function Closes(done: bool): Gui { Gui([IDLE], None, None, false, Some(2), map[2 := Closing(0, done), 1 := ON]) }

  function Closed(): Gui { Gui([IDLE], None, None, false, None, map[1 := ON]) }

  function Sends(): Gui { Gui([IDLE], None, None, false, Some(1), map[1 := SendingOn(0, CFG, ThenDone, None)]) }

  function Sent(): Gui { Gui([OldOn()], None, None, false, Some(1), map[1 := REPLIED]) }

  function Reconnected(): Gui { Gui([OldOn(), IDLE], Some(1), None, false, Some(1), map[1 := REPLIED]) }

  const COMMAND := Execute(0, SiggenOff, true)
  const CLOSE := Execute(2, SiggenOff, true)
  const SEND := Execute(1, SiggenOff, true)

  function Asked(): Gui { Connected().(tasks := map[0 := WantCommands(0)]) }

  function Commands(): Gui { Connected().(lock := Some(0), tasks := map[0 := SendingCommands(0, false)]) }

  function Leaving(): Gui {
    Connected().(lock := Some(0), tasks := map[0 := SendingCommands(0, false), 2 := WantClose(0)])
  }

  lemma Connects()
    ensures Moves(START, [], Connect(IDLE), Connected(), []) && Moves(Sent(), [], Connect(IDLE), Reconnected(), [])
  {
    hide After;
  }

  lemma Queues()
    ensures Moves(Connected(), [], StartCommands(0), Asked(), [0])
    ensures Moves(Asked(), [0], Acquire(0), Commands(), [])
  {
  }

  lemma BothQueue()
    ensures Moves(Commands(), [], StartDisconnect(2), Leaving(), [2])
    ensures Moves(Leaving(), [2], StartEnsure(1, CFG), Busy(false), [2, 1])
  {
    assert Leaving().tasks[1 := ON] == Busy(false).tasks;
  }

  lemma CommandRuns()
    ensures Moves(Busy(false), [2, 1], COMMAND, Busy(true), [2, 1])
  {
    assert After(IDLE, SiggenOff).1 == IDLE;
    hide After;
    assert Busy(false).tasks[0 := SendingCommands(0, true)] == Busy(true).tasks;
  }

  lemma CommandEnds()
    ensures Moves(Busy(true), [2, 1], Resume(0, false, false), Queued(), [2, 1])
  {
    assert Busy(true).tasks - {0} == Queued().tasks;
  }

  lemma BoardCloses()
    ensures Moves(Queued(), [2, 1], Acquire(2), Closes(false), [1])
    ensures Moves(Closes(false), [1], CLOSE, Closes(true), [1])
  {
    hide After;
    assert Queued().tasks[2 := Closing(0, false)] == Closes(false).tasks;
    assert Closes(false).tasks[2 := Closing(0, true)] == Closes(true).tasks;
  }

  lemma BoardClosed()
    ensures Moves(Closes(true), [1], Resume(2, false, false), Closed(), [1])
    ensures Moves(Closed(), [1], Acquire(1), Sends(), [])
  {
    assert Closes(true).tasks - {2} == Closed().tasks;
  }

  lemma TaskSends()
    ensures Moves(Sends(), [], SEND, Sent(), [])
  {
    StreamOnReply(IDLE, CFG);
    assert After(IDLE, StreamOn(CFG)).0;
    hide After;
    assert [IDLE][0 := OldOn()] == [OldOn()];
  }

  lemma ReplyBreaks()
    ensures Breaks(Reconnected(), [], [Resume(1, false, false)])
  {
    var a := Resume(1, false, false);
    assert Enabled(Reconnected(), a) && !Harmless(Reconnected(), a);
    hide Breaks, Moves;
    BreaksNow(Reconnected(), a);
  }

  lemma SendingBreaks(rest: seq<Action>)
    requires Breaks(Reconnected(), [], rest)
    ensures Breaks(Closed(), [1], [Acquire(1)] + ([SEND] + ([Connect(IDLE)] + rest)))
  {
    Connects();
    BoardClosed();
    TaskSends();
    hide Breaks, Moves, OldOn;
    BreaksLater(Sent(), [], Connect(IDLE), Reconnected(), [], rest);
    BreaksLater(Sends(), [], SEND, Sent(), [], [Connect(IDLE)] + rest);
    BreaksLater(Closed(), [1], Acquire(1), Sends(), [], [SEND] + ([Connect(IDLE)] + rest));
  }

  lemma ClosingBreaks(rest: seq<Action>)
    requires Breaks(Closed(), [1], rest)
    ensures Breaks(Queued(), [2, 1], [Acquire(2)] + ([CLOSE] + ([Resume(2, false, false)] + rest)))
  {
    BoardCloses();
    BoardClosed();
    hide Breaks, Moves;
    BreaksLater(Closes(true), [1], Resume(2, false, false), Closed(), [1], rest);
    BreaksLater(Closes(false), [1], CLOSE, Closes(true), [1], [Resume(2, false, false)] + rest);
    BreaksLater(Queued(), [2, 1], Acquire(2), Closes(false), [1], [CLOSE] + ([Resume(2, false, false)] + rest));
  }

  lemma QueueingBreaks(rest: seq<Action>)
    requires Breaks(Queued(), [2, 1], rest)
    ensures Breaks(Commands(), [], [StartDisconnect(2)] + ([StartEnsure(1, CFG)] + ([COMMAND]
            + ([Resume(0, false, false)] + rest))))
  {
    BothQueue();
    CommandRuns();
    CommandEnds();
    hide Breaks, Moves;
    var r1 := [Resume(0, false, false)] + rest;
    BreaksLater(Busy(true), [2, 1], Resume(0, false, false), Queued(), [2, 1], rest);
    var r2 := [COMMAND] + r1;
    BreaksLater(Busy(false), [2, 1], COMMAND, Busy(true), [2, 1], r1);
    BreaksLater(Leaving(), [2], StartEnsure(1, CFG), Busy(false), [2, 1], r2);
    BreaksLater(Commands(), [], StartDisconnect(2), Leaving(), [2], [StartEnsure(1, CFG)] + r2);
  }

  lemma StartBreaks(rest: seq<Action>)
    requires Breaks(Commands(), [], rest)
    ensures Breaks(START, [], [Connect(IDLE)] + ([StartCommands(0)] + ([Acquire(0)] + rest)))
  {
    Connects();
    Queues();
    hide Breaks, Moves;
    BreaksLater(Asked(), [0], Acquire(0), Commands(), [], rest);
    BreaksLater(Connected(), [], StartCommands(0), Asked(), [0], [Acquire(0)] + rest);
    BreaksLater(START, [], Connect(IDLE), Connected(), [], [StartCommands(0)] + ([Acquire(0)] + rest));
  }

  /** The belief does go wrong over a reconnection, in a run in which the lock is handed over in order. */
  lemma StaleTaskBreaksBelief()
    ensures exists run :: Breaks(START, [], run)
  {
    hide Breaks;
    ReplyBreaks();
    var sent := [Resume(1, false, false)];
    SendingBreaks(sent);
    var closed := [Acquire(1)] + ([SEND] + ([Connect(IDLE)] + sent));
    ClosingBreaks(closed);
    var queued := [Acquire(2)] + ([CLOSE] + ([Resume(2, false, false)] + closed));
    QueueingBreaks(queued);
    StartBreaks([StartDisconnect(2)] + ([StartEnsure(1, CFG)] + ([COMMAND] + ([Resume(0, false, false)] + queued))));
  }
}
