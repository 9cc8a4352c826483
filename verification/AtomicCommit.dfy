/**
 The atomic commit protocol (msm/msm_atomic.c): concurrent commits are serialised by the pending
 CRTC and plane masks, dispatched to display threads and completed there, or in the calling thread
 when no display thread takes them. Every atomic section is one step; callers, display threads and
 any number of commits interleave freely.
 */
module AtomicCommit {
  import opened CommitMasks

  // ---------------------------------------------------------------- one commit

  /** The stages of `complete_commit`, run by a display thread or by the caller. */
  datatype Stage =
    | Completing   // reads c->state, programs the hardware
    | Putting      // drm_atomic_state_put
    | Ending       // reads the masks of c, end_atomic
    | Releasing    // reads c->nonblock, frees c when set

  datatype Caller =
    | Starting     // in start_atomic
    | Aborted      // start_atomic was interrupted
    | Getting      // drm_atomic_state_get
    | Dispatching  // reads c->nonblock, queues c or gives up
    | Inline(stage: Stage)
    | Flushing     // kthread_flush_work on c
    | Freeing      // kfree of a blocking commit
    | Returned

  datatype Work = Unqueued | Queued | Running(stage: Stage) | Finished

  /** A commit object with its two threads of control and a history of what happened to it. */
  datatype Commit = Commit(
    crtcs: Mask, planes: Mask, nonblock: bool,
    hasThread: bool,   // some display thread takes the commit
    caller: Caller, work: Work,
    queued: nat, completed: nat, gets: nat, puts: nat, ended: nat, frees: nat,
    lateReads: nat)    // reads of the object after it was freed

  function Fresh(crtcs: Mask, planes: Mask, nonblock: bool, hasThread: bool): Commit {
    Commit(crtcs, planes, nonblock, hasThread, Starting, Unqueued, 0, 0, 0, 0, 0, 0, 0)
  }

  function Read(c: Commit): Commit {
    if c.frees > 0 then c.(lateReads := c.lateReads + 1) else c
  }

  predicate Started(c: Commit) { c.caller != Starting && c.caller != Aborted }

  /** Between start_atomic and end_atomic. */
  predicate InFlight(c: Commit) { Started(c) && c.ended == 0 }

  function CrtcMask(c: Commit): Mask { if InFlight(c) then c.crtcs else {} }

  function PlaneMask(c: Commit): Mask { if InFlight(c) then c.planes else {} }

  /** The effect of one completion stage on the commit object. */
  function DoStage(c: Commit, stage: Stage): Commit {
    match stage
    case Completing => Read(c).(completed := c.completed + 1)
    case Putting => c.(puts := c.puts + 1)
    case Ending => Read(c).(ended := c.ended + 1)
    case Releasing => if c.nonblock then Read(c).(frees := c.frees + 1) else Read(c)
  }

  function NextStage(stage: Stage): Stage {
    match stage
    case Completing => Putting
    case Putting => Ending
    case _ => Releasing
  }

  // ---------------------------------------------------------------- the system

  datatype State = State(commits: seq<Commit>, pendingCrtcs: Mask, pendingPlanes: Mask)

  function CrtcMasks(s: State): seq<Mask> {
    seq(|s.commits|, i requires 0 <= i < |s.commits| => CrtcMask(s.commits[i]))
  }

  function PlaneMasks(s: State): seq<Mask> {
    seq(|s.commits|, i requires 0 <= i < |s.commits| => PlaneMask(s.commits[i]))
  }

  /** Every step moves one commit, by its calling thread or by a display thread. */
  datatype Move = Start | Interrupt | CallerStep | Take | WorkerStep

  datatype Event = New(crtcs: Mask, planes: Mask, nonblock: bool, hasThread: bool) | At(i: nat, move: Move)

  predicate CanStart(s: State, c: Commit) {
    s.pendingCrtcs !! c.crtcs && s.pendingPlanes !! c.planes
  }

  predicate Enabled(s: State, e: Event) {
    e.New? ||
    (e.i < |s.commits| && var c := s.commits[e.i];
     match e.move
     case Start => c.caller == Starting && CanStart(s, c)
     case Interrupt => c.caller == Starting
     case CallerStep => Started(c) && c.caller != Returned && (c.caller == Flushing ==> c.work == Finished)
     case Take => c.work == Queued
     case WorkerStep => c.work.Running?)
  }

  /** The calling thread of `msm_atomic_commit` after start_atomic. */
  function StepCaller(c: Commit): Commit {
    match c.caller
    case Getting => c.(gets := c.gets + 1, caller := Dispatching)
    case Dispatching =>
      if c.hasThread then
        Read(c).(queued := c.queued + 1, work := Queued, caller := if c.nonblock then Returned else Flushing)
      else Read(c).(caller := Inline(Completing))
    case Inline(stage) =>
      DoStage(c, stage).(caller := if stage != Releasing then Inline(NextStage(stage))
                                   else if c.nonblock then Returned else Freeing)
    case Flushing => Read(c).(caller := Freeing)
    case Freeing => c.(frees := c.frees + 1, caller := Returned)
    case _ => c
  }

  function StepWorker(c: Commit): Commit {
    match c.work
    case Running(stage) =>
      DoStage(c, stage).(work := if stage != Releasing then Running(NextStage(stage)) else Finished)
    case _ => c
  }

  function MoveCommit(c: Commit, move: Move): Commit {
    match move
    case Start => c.(caller := Getting)
    case Interrupt => c.(caller := Aborted, frees := c.frees + 1)
    case CallerStep => StepCaller(c)
    case Take => Read(c).(work := Running(Completing))
    case WorkerStep => StepWorker(c)
  }

  /** The stage in which this move runs end_atomic. */
  predicate Ends(c: Commit, move: Move) {
    (move == CallerStep && c.caller == Inline(Ending)) || (move == WorkerStep && c.work == Running(Ending))
  }

  function Step(s: State, e: Event): State
    requires Enabled(s, e)
  {
    match e
    case New(crtcs, planes, nonblock, hasThread) =>
      s.(commits := s.commits + [Fresh(crtcs, planes, nonblock, hasThread)])
    case At(i, move) =>
      var c := s.commits[i];
      var s1 := s.(commits := s.commits[i := MoveCommit(c, move)]);
      if move == Start then
        s1.(pendingCrtcs := s.pendingCrtcs + c.crtcs, pendingPlanes := s.pendingPlanes + c.planes)
      else if Ends(c, move) then
        s1.(pendingCrtcs := s.pendingCrtcs - c.crtcs, pendingPlanes := s.pendingPlanes - c.planes)
      else s1
  }

  /** Any interleaving: a thread whose next step is not enabled waits, so its event has no effect. */
  function Run(s: State, es: seq<Event>): State {
    if es == [] then s
    else
      var m := Run(s, es[..|es| - 1]);
      if Enabled(m, es[|es| - 1]) then Step(m, es[|es| - 1]) else m
  }

  const Empty := State([], {}, {})

  // ---------------------------------------------------------------- the life of a commit

  function StageNo(stage: Stage): nat {
    match stage
    case Completing => 0
    case Putting => 1
    case Ending => 2
    case Releasing => 3
  }

  function OneIf(b: bool): nat { if b then 1 else 0 }

  /** The counters of a completion that is about to run `stage`. */
  predicate MidCompletion(c: Commit, stage: Stage) {
    && c.completed == OneIf(StageNo(stage) > 0) && c.puts == OneIf(StageNo(stage) > 1)
    && c.ended == OneIf(StageNo(stage) > 2) && c.frees == 0
  }

  predicate Untouched(c: Commit) { c.completed == c.puts == c.ended == c.frees == 0 }

  predicate Completed(c: Commit) { c.completed == c.puts == c.ended == 1 }

  /** What the positions of the two threads say about everything that has happened to the commit. */
  predicate LifeOk(c: Commit) {
    && c.lateReads == 0
    && match c.caller
       case Starting => c.work == Unqueued && c.queued == c.gets == 0 && Untouched(c)
       case Aborted => c.work == Unqueued && c.queued == c.gets == 0 && c.completed == c.puts == c.ended == 0 && c.frees == 1
       case Getting => c.work == Unqueued && c.queued == c.gets == 0 && Untouched(c)
       case Dispatching => c.work == Unqueued && c.queued == 0 && c.gets == 1 && Untouched(c)
       case Inline(stage) => !c.hasThread && c.work == Unqueued && c.queued == 0 && c.gets == 1 && MidCompletion(c, stage)
       case Flushing => c.hasThread && !c.nonblock && c.queued == 1 && c.gets == 1 && WorkOk(c) && c.frees == 0
       case Freeing => !c.nonblock && c.gets == 1 && Completed(c) && c.frees == 0 &&
                       c.queued == OneIf(c.hasThread) && c.work == (if c.hasThread then Finished else Unqueued)
       case Returned => c.gets == 1 && c.queued == OneIf(c.hasThread) &&
                        (if c.hasThread && c.nonblock then WorkOk(c)
                         else Completed(c) && c.frees == 1 && c.work == (if c.hasThread then Finished else Unqueued))
  }

  /** The counters as the display thread's position fixes them. */
  predicate WorkOk(c: Commit) {
    match c.work
    case Unqueued => false
    case Queued => Untouched(c)
    case Running(stage) => MidCompletion(c, stage)
    case Finished => Completed(c) && c.frees == OneIf(c.nonblock)
  }

  predicate Over(c: Commit) { c.caller == Returned && (c.hasThread ==> c.work == Finished) }

  lemma {:induction false} CallerKeepsLife(c: Commit)
    requires LifeOk(c) && Started(c) && (c.caller == Flushing ==> c.work == Finished)
    ensures LifeOk(StepCaller(c))
  {
  }

  lemma {:induction false} WorkerKeepsLife(c: Commit)
    requires LifeOk(c) && (c.work == Queued || c.work.Running?)
    ensures c.work == Queued ==> LifeOk(MoveCommit(c, Take))
    ensures LifeOk(StepWorker(c))
    ensures Started(c) && c.hasThread
  {
  }

  lemma {:induction false} MoveKeepsLife(s: State, i: nat, move: Move)
    requires Enabled(s, At(i, move)) && LifeOk(s.commits[i])
    ensures LifeOk(MoveCommit(s.commits[i], move))
  {
    hide StepCaller, StepWorker;
    var c := s.commits[i];
    match move {
      case CallerStep => CallerKeepsLife(c);
      case Take => WorkerKeepsLife(c);
      case WorkerStep => WorkerKeepsLife(c);
      case _ =>
    }
  }

  /** A commit that is over went through every station exactly once. */
  lemma {:induction false} OverMeansOnce(c: Commit)
    requires LifeOk(c) && Over(c)
    ensures c.completed == c.gets == c.puts == c.ended == c.frees == 1
    ensures c.queued == OneIf(c.hasThread) && c.lateReads == 0
  {
  }

  /** At no time has anything happened twice, nor was a reference dropped before it was taken. */
  lemma {:induction false} NeverTwice(c: Commit)
    requires LifeOk(c)
    ensures c.queued <= 1 && c.completed <= 1 && c.ended <= 1 && c.frees <= 1 && c.puts <= c.gets <= 1
    ensures c.lateReads == 0
    ensures c.frees == 1 && Started(c) ==> Completed(c)
    ensures c.caller == Returned && !c.nonblock ==> Over(c)
    ensures c.puts > 0 ==> c.completed == 1
    ensures c.ended > 0 ==> c.puts == 1
  {
  }

  // ---------------------------------------------------------------- the pending masks

  /** In-flight masks are pairwise disjoint and the pending masks are exactly their unions. */
  ghost predicate MasksOk(s: State) {
    && PairwiseApart(CrtcMasks(s)) && s.pendingCrtcs == OrAll(CrtcMasks(s))
    && PairwiseApart(PlaneMasks(s)) && s.pendingPlanes == OrAll(PlaneMasks(s))
  }

  ghost predicate Good(s: State) {
    MasksOk(s) && LivesOk(s.commits)
  }

  /** How a move changes whether a commit is in flight. */
  lemma {:induction false} FlightChange(s: State, i: nat, move: Move)
    requires Enabled(s, At(i, move)) && LifeOk(s.commits[i])
    ensures var c := s.commits[i]; var c' := MoveCommit(c, move);
            && c'.crtcs == c.crtcs && c'.planes == c.planes
            && (move == Start ==> !InFlight(c) && InFlight(c'))
            && (Ends(c, move) ==> InFlight(c) && !InFlight(c'))
            && (move != Start && !Ends(c, move) ==> InFlight(c) == InFlight(c'))
  {
    var c := s.commits[i];
    if move == Take || move == WorkerStep {
      WorkerKeepsLife(c);
    }
  }

  /** Start and end, seen on one of the two mask sequences. */
  lemma {:induction false} MaskMove(ms: seq<Mask>, i: nat, pending: Mask, m: Mask)
    requires i < |ms| && PairwiseApart(ms) && pending == OrAll(ms)
    ensures ms[i] == {} && pending !! m ==> PairwiseApart(ms[i := m]) && OrAll(ms[i := m]) == pending + m
    ensures ms[i] == m ==> PairwiseApart(ms[i := {}]) && OrAll(ms[i := {}]) == pending - m
  {
    hide OrAll;
    if ms[i] == {} && pending !! m {
      OrMeets(ms, m);
      OrAdd(ms, i, m);
    }
    if ms[i] == m {
      OrRemove(ms, i);
    }
  }

  /** The masks before and after a move differ at most in the moved commit's entry. */
  lemma {:induction false} MasksAfterMove(s: State, i: nat, move: Move)
    requires Enabled(s, At(i, move))
    ensures var c' := MoveCommit(s.commits[i], move);
            && CrtcMasks(Step(s, At(i, move))) == CrtcMasks(s)[i := CrtcMask(c')]
            && PlaneMasks(Step(s, At(i, move))) == PlaneMasks(s)[i := PlaneMask(c')]
  {
    hide LifeOk, MoveCommit, CrtcMask, PlaneMask;
  }

  lemma {:induction false} MoveKeepsMasks(s: State, i: nat, move: Move)
    requires MasksOk(s) && Enabled(s, At(i, move)) && LifeOk(s.commits[i])
    ensures MasksOk(Step(s, At(i, move)))
  {
    hide OrAll, LifeOk, MoveCommit, Ends, PairwiseApart, InFlight;
    var c, c' := s.commits[i], MoveCommit(s.commits[i], move);
    FlightChange(s, i, move);
    MasksAfterMove(s, i, move);
    MaskMove(CrtcMasks(s), i, s.pendingCrtcs, c.crtcs);
    MaskMove(PlaneMasks(s), i, s.pendingPlanes, c.planes);
    assert CrtcMasks(s)[i] == CrtcMask(c) && PlaneMasks(s)[i] == PlaneMask(c);
    if InFlight(c) == InFlight(c') {
      assert CrtcMasks(s)[i := CrtcMask(c')] == CrtcMasks(s) && PlaneMasks(s)[i := PlaneMask(c')] == PlaneMasks(s);
    }
  }

  lemma {:induction false} NewKeepsMasks(s: State, c: Commit)
    requires MasksOk(s) && !InFlight(c)
    ensures MasksOk(s.(commits := s.commits + [c]))
  {
    hide OrAll;
    var s' := s.(commits := s.commits + [c]);
    assert CrtcMasks(s') == CrtcMasks(s) + [{}] && PlaneMasks(s') == PlaneMasks(s) + [{}];
    OrAppendNone(CrtcMasks(s));
    OrAppendNone(PlaneMasks(s));
  }

  ghost predicate LivesOk(commits: seq<Commit>) { forall i :: 0 <= i < |commits| ==> LifeOk(commits[i]) }

  lemma {:induction false} LivesAfter(commits: seq<Commit>, i: nat, c: Commit)
    requires LivesOk(commits) && i <= |commits| && LifeOk(c)
    ensures i < |commits| ==> LivesOk(commits[i := c])
    ensures LivesOk(commits + [c])
  {
  }

  /** Safety of the whole protocol under every interleaving of any number of commits. */
  lemma {:induction false} RunKeeps(es: seq<Event>)
    ensures Good(Run(Empty, es))
  {
    if es != [] {
      RunKeeps(es[..|es| - 1]);
      var s, e := Run(Empty, es[..|es| - 1]), es[|es| - 1];
      hide Run, MasksOk, LivesOk;
      if Enabled(s, e) {
        match e {
          case New(crtcs, planes, nonblock, hasThread) =>
            NewKeepsMasks(s, Fresh(crtcs, planes, nonblock, hasThread));
            LivesAfter(s.commits, |s.commits|, Fresh(crtcs, planes, nonblock, hasThread));
          case At(i, move) =>
            hide LifeOk, MoveCommit;
            assert LifeOk(s.commits[i]) by { LifeOf(s.commits, i); }
            MoveKeepsMasks(s, i, move);
            MoveKeepsLife(s, i, move);
            LivesAfter(s.commits, i, MoveCommit(s.commits[i], move));
        }
        assert Good(Step(s, e));
      }
      assert Run(Empty, es) == if Enabled(s, e) then Step(s, e) else s by { RunLast(es); }
    }
  }

  lemma {:induction false} RunLast(es: seq<Event>)
    requires es != []
    ensures var s, e := Run(Empty, es[..|es| - 1]), es[|es| - 1];
            Run(Empty, es) == if Enabled(s, e) then Step(s, e) else s
  {
  }

  lemma {:induction false} LifeOf(commits: seq<Commit>, i: nat)
    requires LivesOk(commits) && i < |commits|
    ensures LifeOk(commits[i])
  {
  }

  /**
   In every run: no commit is queued, completed, ended, put or freed twice and none is read after
   its free; one that is over has been through each of these exactly once.
   */
  lemma {:induction false} RunExactlyOnce(es: seq<Event>, i: nat)
    requires i < |Run(Empty, es).commits|
    ensures var c := Run(Empty, es).commits[i];
            && c.queued <= 1 && c.completed <= 1 && c.ended <= 1 && c.frees <= 1 && c.puts <= c.gets <= 1
            && c.lateReads == 0
            && (Over(c) ==> c.completed == c.gets == c.puts == c.ended == c.frees == 1 && c.queued == OneIf(c.hasThread))
            && (c.caller == Returned && !c.nonblock ==> Over(c))
  {
    hide LifeOk, Step;
    RunKeeps(es);
    var c := Run(Empty, es).commits[i];
    NeverTwice(c);
    if Over(c) {
      OverMeansOnce(c);
    }
  }

  /** With nothing in flight both pending masks are zero, so every waiting commit can start. */
  lemma {:induction false} Quiescent(s: State)
    requires Good(s) && forall i :: 0 <= i < |s.commits| ==> !InFlight(s.commits[i])
    ensures s.pendingCrtcs == {} && s.pendingPlanes == {}
    ensures forall i :: 0 <= i < |s.commits| ==> CanStart(s, s.commits[i])
  {
    EmptyUnion(CrtcMasks(s));
    EmptyUnion(PlaneMasks(s));
  }

  lemma {:induction false} EmptyUnion(ms: seq<Mask>)
    requires forall i :: 0 <= i < |ms| ==> ms[i] == {}
    ensures OrAll(ms) == {}
  {
    if ms != [] {
      EmptyUnion(ms[..|ms| - 1]);
    }
  }

  // ---------------------------------------------------------------- progress

  function StagesLeft(stage: Stage): nat { 4 - StageNo(stage) }

  /** Steps the two threads of a commit can still take. */
  function Rank(c: Commit): nat {
    CallerRank(c) + WorkRank(c)
  }

  function CallerRank(c: Commit): nat {
    match c.caller
    case Starting => 14
    case Getting => 13
    case Dispatching => 12
    case Inline(stage) => 2 + StagesLeft(stage)
    case Flushing => 2
    case Freeing => 1
    case _ => 0
  }

  function WorkRank(c: Commit): nat {
    match c.work
    case Queued => 5
    case Running(stage) => StagesLeft(stage)
    case _ => 0
  }

  lemma {:induction false} MoveLowersRank(s: State, i: nat, move: Move)
    requires Enabled(s, At(i, move)) && LifeOk(s.commits[i])
    ensures Rank(MoveCommit(s.commits[i], move)) < Rank(s.commits[i])
  {
    if move == Take || move == WorkerStep {
      WorkerKeepsLife(s.commits[i]);
    }
  }

  /** A commit that passed start_atomic and is not over can always be moved. */
  lemma {:induction false} NeverStuck(s: State, i: nat)
    requires Good(s) && i < |s.commits| && Started(s.commits[i]) && !Over(s.commits[i])
    ensures exists move :: Enabled(s, At(i, move))
  {
    hide MasksOk;
    var c := s.commits[i];
    assert LifeOk(c);
    if c.work == Queued {
      assert Enabled(s, At(i, Take));
    } else if c.work.Running? {
      assert Enabled(s, At(i, WorkerStep));
    } else {
      assert Enabled(s, At(i, CallerStep));
    }
  }

  /** How many effective moves commit `i` made in the run. */
  function Moves(s: State, es: seq<Event>, i: nat): nat {
    if es == [] then 0
    else
      var e := es[|es| - 1];
      Moves(s, es[..|es| - 1], i) + OneIf(e.At? && e.i == i && Enabled(Run(s, es[..|es| - 1]), e))
  }

  /** No commit moves more than 14 times, so with `NeverStuck` every started commit gets over. */
  lemma {:induction false} MovesBounded(es: seq<Event>, i: nat)
    ensures i < |Run(Empty, es).commits| ==> Moves(Empty, es, i) + Rank(Run(Empty, es).commits[i]) <= 14
    ensures i >= |Run(Empty, es).commits| ==> Moves(Empty, es, i) == 0
  {
    hide LifeOk, MoveCommit;
    if es != [] {
      var s, e := Run(Empty, es[..|es| - 1]), es[|es| - 1];
      MovesBounded(es[..|es| - 1], i);
      RunKeeps(es[..|es| - 1]);
      if Enabled(s, e) && e.At? {
        MoveLowersRank(s, e.i, e.move);
      }
    }
  }

  /** An interrupted start frees the commit and leaves the pending masks and all other commits as they were. */
  lemma {:induction false} InterruptedStart(s: State, i: nat)
    requires Good(s) && Enabled(s, At(i, Interrupt))
    ensures var s' := Step(s, At(i, Interrupt));
            && s'.pendingCrtcs == s.pendingCrtcs && s'.pendingPlanes == s.pendingPlanes
            && s'.commits[i].frees == 1 && s'.commits[i].gets == s'.commits[i].queued == s'.commits[i].ended == 0
            && (forall move :: !Enabled(s', At(i, move)))
            && (forall j :: 0 <= j < |s.commits| && j != i ==> s'.commits[j] == s.commits[j])
  {
    hide MasksOk;
    assert LifeOk(s.commits[i]);
  }
}
