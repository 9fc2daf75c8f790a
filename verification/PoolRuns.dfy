/** The warm pool shared by any number of tasks. Every point at which a task may have to wait, for
    one of the two locks or for the backend, is a step of its own, and the steps of different tasks
    interleave in every order the locks allow. */
module PoolRuns {
  import opened Types

  /** What a task does next. `popping` is set when the filling is part of a checkout; `locked`
      while the lock of `available` is still held. */
  datatype Pc =
    | Idle
    | Measuring(popping: bool)
    | Creating(popping: bool)
    | Adding(id: SandboxId, popping: bool)
    | Looking
    | Taking
    | Recording(id: SandboxId, locked: bool)
    | TakingOrRestoring
    | Restoring
    | Returning(id: SandboxId)
    | PuttingBack(id: SandboxId)
    | Dead
  {
    predicate NeedsAvailable() {
      Measuring? || Adding? || Looking? || Taking? || TakingOrRestoring? || PuttingBack?
    }

    /** A sandbox that the task alone knows of. */
    predicate InHand(x: SandboxId) {
      (Adding? || Recording? || PuttingBack?) && id == x
    }
  }

  /** `holds` is what the client behind the task has checked out and not yet given back. */
  datatype Task = Task(pc: Pc, holds: set<SandboxId>) {
    predicate Claims(x: SandboxId) { x in holds || (pc.Returning? && pc.id == x) }
  }

  datatype Pool = Pool(available: seq<SandboxId>, inUse: set<SandboxId>, issued: nat, tasks: seq<Task>) {
    predicate Locked() { exists i | 0 <= i < |tasks| :: tasks[i].pc.Recording? && tasks[i].pc.locked }

    function Goto(i: nat, pc: Pc): Pool
      requires i < |tasks|
    {
      this.(tasks := tasks[i := tasks[i].(pc := pc)])
    }
  }

  datatype Event = CallFill | CallCheckout | CallCheckoutOrRestore | CallRelease(id: SandboxId) | Continue(ok: bool)

  predicate Enabled(s: Pool, i: nat, e: Event) {
    && i < |s.tasks|
    && (if e.Continue?
        then !s.tasks[i].pc.Idle? && !s.tasks[i].pc.Dead? && (s.tasks[i].pc.NeedsAvailable() ==> !s.Locked())
        else s.tasks[i].pc.Idle?)
  }

  function Next(s: Pool, target: nat, i: nat, e: Event): Pool
    requires Enabled(s, i, e)
  {
    match e
    case CallFill => s.Goto(i, Measuring(false))
    case CallCheckout => s.Goto(i, Looking)
    case CallCheckoutOrRestore => s.Goto(i, TakingOrRestoring)
    case CallRelease(id) => s.(tasks := s.tasks[i := Task(Returning(id), s.tasks[i].holds - {id})])
    case Continue(ok) =>
      match s.tasks[i].pc
      case Measuring(popping) =>
        s.Goto(i, if |s.available| < target then Creating(popping) else if popping then Taking else Idle)
      case Creating(popping) =>
        if ok then s.(issued := s.issued + 1).Goto(i, Adding(s.issued, popping)) else s.Goto(i, Idle)
      case Adding(id, popping) =>
        s.(available := s.available + [id]).Goto(i, Measuring(popping))
      case Looking => s.Goto(i, if s.available == [] then Measuring(true) else Taking)
      case Taking =>
        if s.available == [] then s.Goto(i, Dead)
        else s.(available := s.available[1..]).Goto(i, Recording(s.available[0], false))
      case Recording(id, _) =>
        s.(inUse := s.inUse + {id}, tasks := s.tasks[i := Task(Idle, s.tasks[i].holds + {id})])
      case TakingOrRestoring =>
        if s.available == [] then s.Goto(i, Restoring)
        else s.(available := s.available[1..]).Goto(i, Recording(s.available[0], true))
      case Restoring =>
        if ok then s.(issued := s.issued + 1).Goto(i, Recording(s.issued, false)) else s.Goto(i, Idle)
      case Returning(id) =>
        if id in s.inUse then s.(inUse := s.inUse - {id}).Goto(i, PuttingBack(id)) else s.Goto(i, Idle)
      case PuttingBack(id) => s.(available := s.available + [id]).Goto(i, Idle)
      case _ => s
  }

  datatype Move = Move(task: nat, event: Event)

  /** The moves of a run, made one after the other, lead from `s` to `t`. */
  ghost predicate Runs(s: Pool, target: nat, moves: seq<Move>, t: Pool)
    decreases |moves|
  {
    if moves == [] then t == s
    else
      && Enabled(s, moves[0].task, moves[0].event)
      && Runs(Next(s, target, moves[0].task, moves[0].event), target, moves[1..], t)
  }

  function Start(tasks: nat): Pool {
    Pool([], {}, 0, seq(tasks, i => Task(Idle, {})))
  }

  // ---- Conservation ----

  ghost function HandCount(tasks: seq<Task>, x: SandboxId): nat {
    if tasks == [] then 0 else (if tasks[0].pc.InHand(x) then 1 else 0) + HandCount(tasks[1..], x)
  }

  ghost function Places(s: Pool, x: SandboxId): nat {
    multiset(s.available)[x] + (if x in s.inUse then 1 else 0) + HandCount(s.tasks, x)
  }

  /** Every sandbox that was ever created or restored is in exactly one place, once; others are in
      none. */
  ghost predicate Conserved(s: Pool) {
    forall x: SandboxId :: Places(s, x) == if x < s.issued then 1 else 0
  }

  lemma {:induction false} HandUpdate(tasks: seq<Task>, i: nat, task: Task, x: SandboxId)
    requires i < |tasks|
    ensures HandCount(tasks[i := task], x) + (if tasks[i].pc.InHand(x) then 1 else 0)
         == HandCount(tasks, x) + (if task.pc.InHand(x) then 1 else 0)
  {
    if i > 0 {
      assert tasks[i := task][1..] == tasks[1..][i - 1 := task];
      HandUpdate(tasks[1..], i - 1, task, x);
    } else {
      assert tasks[i := task][1..] == tasks[1..];
    }
  }

  function One(b: bool): nat { if b then 1 else 0 }

  lemma TaskPlaces(s: Pool, i: nat, task: Task, x: SandboxId)
    requires i < |s.tasks|
    ensures Places(s.(tasks := s.tasks[i := task]), x) + One(s.tasks[i].pc.InHand(x)) ==
            Places(s, x) + One(task.pc.InHand(x))
    ensures Places(s, x) >= One(s.tasks[i].pc.InHand(x)) + One(x in s.inUse)
  {
    HandUpdate(s.tasks, i, task, x);
    HandUpdate(s.tasks, i, Task(Idle, {}), x);
  }

  lemma AvailablePlaces(s: Pool, id: SandboxId, x: SandboxId)
    ensures Places(s.(available := s.available + [id]), x) == Places(s, x) + One(id == x)
    ensures s.available != [] ==>
              Places(s, x) == Places(s.(available := s.available[1..]), x) + One(s.available[0] == x)
  {
    hide HandCount;
    if s.available != [] { assert s.available == [s.available[0]] + s.available[1..]; }
  }

  lemma InUsePlaces(s: Pool, id: SandboxId, x: SandboxId)
    ensures id !in s.inUse ==> Places(s.(inUse := s.inUse + {id}), x) == Places(s, x) + One(id == x)
    ensures id in s.inUse ==> Places(s, x) == Places(s.(inUse := s.inUse - {id}), x) + One(id == x)
  {
    hide HandCount;
  }

  /** Where everything is after a step, in terms of the step's parts: what it does to the pool,
      then what it does to the task. */
  lemma GotoPlaces(s: Pool, i: nat, pc: Pc, x: SandboxId)
    requires i < |s.tasks|
    ensures Places(s.Goto(i, pc), x) + One(s.tasks[i].pc.InHand(x)) == Places(s, x) + One(pc.InHand(x))
  {
    TaskPlaces(s, i, s.tasks[i].(pc := pc), x);
  }

  lemma CallKeepsPlaces(s: Pool, target: nat, i: nat, e: Event, x: SandboxId)
    requires Enabled(s, i, e) && !e.Continue?
    ensures Places(Next(s, target, i, e), x) == Places(s, x) && Next(s, target, i, e).issued == s.issued
  {
    hide Places;
    TaskPlaces(s, i, Next(s, target, i, e).tasks[i], x);
  }

  lemma TakeKeepsPlaces(s: Pool, target: nat, i: nat, ok: bool, x: SandboxId)
    requires Enabled(s, i, Continue(ok)) && (s.tasks[i].pc.Taking? || s.tasks[i].pc.TakingOrRestoring?)
    ensures Places(Next(s, target, i, Continue(ok)), x) == Places(s, x)
  {
    hide Places;
    var t := Next(s, target, i, Continue(ok));
    AvailablePlaces(s, 0, x);
    if s.available == [] {
      GotoPlaces(s, i, t.tasks[i].pc, x);
    } else {
      GotoPlaces(s.(available := s.available[1..]), i, t.tasks[i].pc, x);
    }
  }

  lemma PutKeepsPlaces(s: Pool, target: nat, i: nat, ok: bool, x: SandboxId)
    requires Enabled(s, i, Continue(ok)) && (s.tasks[i].pc.Adding? || s.tasks[i].pc.PuttingBack?)
    ensures Places(Next(s, target, i, Continue(ok)), x) == Places(s, x)
  {
    hide Places;
    var t := Next(s, target, i, Continue(ok));
    var id := s.tasks[i].pc.id;
    AvailablePlaces(s, id, x);
    GotoPlaces(s.(available := s.available + [id]), i, t.tasks[i].pc, x);
  }

  lemma RecordKeepsPlaces(s: Pool, target: nat, i: nat, ok: bool, x: SandboxId)
    requires Enabled(s, i, Continue(ok)) && s.tasks[i].pc.Recording? && Places(s, s.tasks[i].pc.id) <= 1
    ensures Places(Next(s, target, i, Continue(ok)), x) == Places(s, x)
  {
    hide Places;
    var t := Next(s, target, i, Continue(ok));
    var id := s.tasks[i].pc.id;
    TaskPlaces(s, i, s.tasks[i], id);
    InUsePlaces(s, id, x);
    TaskPlaces(s.(inUse := s.inUse + {id}), i, t.tasks[i], x);
  }

  lemma ReturnKeepsPlaces(s: Pool, target: nat, i: nat, ok: bool, x: SandboxId)
    requires Enabled(s, i, Continue(ok)) && s.tasks[i].pc.Returning?
    ensures Places(Next(s, target, i, Continue(ok)), x) == Places(s, x)
  {
    hide Places;
    var t := Next(s, target, i, Continue(ok));
    var id := s.tasks[i].pc.id;
    InUsePlaces(s, id, x);
    GotoPlaces(s, i, Idle, x);
    GotoPlaces(s.(inUse := s.inUse - {id}), i, PuttingBack(id), x);
  }

  /** The backend's answer puts a new sandbox into the task's hands. */
  lemma IssuePlaces(s: Pool, target: nat, i: nat, ok: bool, x: SandboxId)
    requires Enabled(s, i, Continue(ok)) && (s.tasks[i].pc.Creating? || s.tasks[i].pc.Restoring?)
    ensures var t := Next(s, target, i, Continue(ok));
            Places(t, x) == Places(s, x) + One(ok && x == s.issued) && t.issued == s.issued + One(ok)
  {
    var t := Next(s, target, i, Continue(ok));
    assert Places(s.(issued := s.issued + 1), x) == Places(s, x);
    hide Places;
    GotoPlaces(s, i, t.tasks[i].pc, x);
    GotoPlaces(s.(issued := s.issued + 1), i, t.tasks[i].pc, x);
  }

  lemma StepConserves(s: Pool, target: nat, i: nat, e: Event)
    requires Conserved(s) && Enabled(s, i, e)
    ensures Conserved(Next(s, target, i, e))
  {
    hide Places;
    var t := Next(s, target, i, e);
    forall x: SandboxId ensures Places(t, x) == if x < t.issued then 1 else 0 {
      assert Places(s, x) == if x < s.issued then 1 else 0;
      if !e.Continue? {
        CallKeepsPlaces(s, target, i, e, x);
      } else {
        match s.tasks[i].pc
        case Adding(_, _) => PutKeepsPlaces(s, target, i, e.ok, x);
        case PuttingBack(_) => PutKeepsPlaces(s, target, i, e.ok, x);
        case Taking => TakeKeepsPlaces(s, target, i, e.ok, x);
        case TakingOrRestoring => TakeKeepsPlaces(s, target, i, e.ok, x);
        case Recording(id, _) => RecordKeepsPlaces(s, target, i, e.ok, x);
        case Returning(_) => ReturnKeepsPlaces(s, target, i, e.ok, x);
        case Creating(_) => IssuePlaces(s, target, i, e.ok, x);
        case Restoring => IssuePlaces(s, target, i, e.ok, x);
        case Measuring(_) => GotoPlaces(s, i, t.tasks[i].pc, x);
        case Looking => GotoPlaces(s, i, t.tasks[i].pc, x);
        case _ =>
      }
    }
  }

  lemma {:induction false} NoHands(tasks: nat, x: SandboxId)
    ensures HandCount(Start(tasks).tasks, x) == 0
  {
    if tasks > 0 {
      assert Start(tasks).tasks[1..] == Start(tasks - 1).tasks;
      NoHands(tasks - 1, x);
    }
  }

  lemma StartConserved(tasks: nat)
    ensures Conserved(Start(tasks))
  {
    forall x: SandboxId ensures Places(Start(tasks), x) == 0 { NoHands(tasks, x); }
  }

  /** Conservation under every interleaving of any number of tasks, however the backend answers. */
  lemma {:induction false} RunsConserve(s: Pool, target: nat, moves: seq<Move>, t: Pool)
    requires Conserved(s) && Runs(s, target, moves, t)
    ensures Conserved(t)
    decreases |moves|
  {
    if moves != [] {
      StepConserves(s, target, moves[0].task, moves[0].event);
      RunsConserve(Next(s, target, moves[0].task, moves[0].event), target, moves[1..], t);
    }
  }

  lemma {:induction false} HandCounts(tasks: seq<Task>, i: nat, j: nat, x: SandboxId)
    requires i < j < |tasks|
    ensures HandCount(tasks, x) >= One(tasks[i].pc.InHand(x)) + One(tasks[j].pc.InHand(x))
  {
    HandUpdate(tasks, i, Task(Idle, {}), x);
    var others := tasks[i := Task(Idle, {})];
    HandUpdate(others, j, Task(Idle, {}), x);
  }

  lemma TwiceInSequence(available: seq<SandboxId>, i: nat, j: nat)
    requires i < j < |available| && available[i] == available[j]
    ensures multiset(available)[available[i]] >= 2
  {
    assert available == available[..j] + [available[j]] + available[j + 1..];
    assert available[i] in available[..j];
  }

  /** What conservation means: nothing is in the queue twice, and queue, sandboxes in use and the
      hands of different tasks are pairwise disjoint. */
  lemma ConservedSeparates(s: Pool)
    requires Conserved(s)
    ensures forall i, j | 0 <= i < j < |s.available| :: s.available[i] != s.available[j]
    ensures forall x <- s.available :: x !in s.inUse
    ensures forall i, x | 0 <= i < |s.tasks| && s.tasks[i].pc.InHand(x) :: x !in s.available && x !in s.inUse
    ensures forall i, j, x | 0 <= i < j < |s.tasks| :: !(s.tasks[i].pc.InHand(x) && s.tasks[j].pc.InHand(x))
  {
    forall i, j | 0 <= i < j < |s.available| ensures s.available[i] != s.available[j] {
      assert Places(s, s.available[i]) <= 1;
      if s.available[i] == s.available[j] { TwiceInSequence(s.available, i, j); }
    }
    forall x <- s.available ensures x !in s.inUse {
      assert Places(s, x) <= 1 <= multiset(s.available)[x];
    }
    forall i, x | 0 <= i < |s.tasks| && s.tasks[i].pc.InHand(x) ensures x !in s.available && x !in s.inUse {
      HandUpdate(s.tasks, i, Task(Idle, {}), x);
      assert Places(s, x) <= 1;
      assert x in s.available ==> multiset(s.available)[x] > 0;
    }
    forall i, j, x | 0 <= i < j < |s.tasks| ensures !(s.tasks[i].pc.InHand(x) && s.tasks[j].pc.InHand(x)) {
      HandCounts(s.tasks, i, j, x);
      assert Places(s, x) <= 1;
    }
  }

  // ---- Holders ----

  /** Every client holds only sandboxes in use, and no two hold the same one. */
  ghost predicate Owned(s: Pool) {
    && (forall i, x | 0 <= i < |s.tasks| && s.tasks[i].Claims(x) :: x in s.inUse)
    && (forall i, j, x | 0 <= i < |s.tasks| && 0 <= j < |s.tasks| && s.tasks[i].Claims(x) && s.tasks[j].Claims(x) ::
          i == j)
    && (forall i | 0 <= i < |s.tasks| && s.tasks[i].pc.Returning? :: s.tasks[i].pc.id !in s.tasks[i].holds)
  }

  /** Clients release only what they hold. */
  ghost predicate Honest(s: Pool, target: nat, moves: seq<Move>)
    decreases |moves|
  {
    moves == [] ||
    (&& Enabled(s, moves[0].task, moves[0].event)
     && (moves[0].event.CallRelease? ==> moves[0].event.id in s.tasks[moves[0].task].holds)
     && Honest(Next(s, target, moves[0].task, moves[0].event), target, moves[1..]))
  }

  lemma StepOwned(s: Pool, target: nat, i: nat, e: Event)
    requires Conserved(s) && Owned(s) && Enabled(s, i, e)
    requires e.CallRelease? ==> e.id in s.tasks[i].holds
    ensures Owned(Next(s, target, i, e))
  {
    ConservedSeparates(s);
    hide Conserved;
    var t := Next(s, target, i, e);
    if e.Continue? && s.tasks[i].pc.Recording? {
      assert s.tasks[i].pc.InHand(s.tasks[i].pc.id);
    }
    if e.Continue? && s.tasks[i].pc.Returning? {
      assert s.tasks[i].Claims(s.tasks[i].pc.id);
    }
    assert forall j | 0 <= j < |s.tasks| && j != i :: t.tasks[j] == s.tasks[j];
  }

  /** No sandbox has two holders, in every interleaving in which clients release only what they
      hold; what is held is in use, so the pool does not hand it out again. */
  lemma {:induction false} OneHolder(s: Pool, target: nat, moves: seq<Move>, t: Pool)
    requires Conserved(s) && Owned(s) && Runs(s, target, moves, t) && Honest(s, target, moves)
    ensures Owned(t)
    decreases |moves|
  {
    if moves != [] {
      StepConserves(s, target, moves[0].task, moves[0].event);
      StepOwned(s, target, moves[0].task, moves[0].event);
      OneHolder(Next(s, target, moves[0].task, moves[0].event), target, moves[1..], t);
    }
  }

  lemma StartOwned(tasks: nat)
    ensures Owned(Start(tasks))
  {
  }

  /** The whole claim for runs from the beginning. */
  lemma PoolIsSafe(tasks: nat, target: nat, moves: seq<Move>, t: Pool)
    requires Runs(Start(tasks), target, moves, t)
    ensures Conserved(t)
    ensures Honest(Start(tasks), target, moves) ==> Owned(t)
  {
    StartConserved(tasks);
    StartOwned(tasks);
    RunsConserve(Start(tasks), target, moves, t);
    if Honest(Start(tasks), target, moves) { OneHolder(Start(tasks), target, moves, t); }
  }

  // ---- Where the guarantees end ----

  /** A task that runs alone with a positive target never dies: what it found in the pool, or put
      there, is still there when it takes it. */
  lemma {:induction false} AloneNeverDies(s: Pool, target: nat, moves: seq<Move>, t: Pool, i: nat)
    requires target > 0 && i < |s.tasks| && Runs(s, target, moves, t)
    requires forall m <- moves :: m.task == i
    requires !s.tasks[i].pc.Dead? && (s.tasks[i].pc.Taking? ==> s.available != [])
    ensures |t.tasks| == |s.tasks| && !t.tasks[i].pc.Dead?
    decreases |moves|
  {
    if moves != [] {
      assert moves[0] in moves;
      AloneNeverDies(Next(s, target, i, moves[0].event), target, moves[1..], t, i);
    }
  }

  /** Two tasks can both see the last sandbox; whatever the target, the second then dies. */
  lemma RaceDies(s: Pool, target: nat)
    requires |s.tasks| >= 2 && s.tasks[0].pc.Idle? && s.tasks[1].pc.Idle? && |s.available| == 1 && !s.Locked()
    ensures exists moves, t :: Runs(s, target, moves, t) && |t.tasks| >= 2 && t.tasks[1].pc.Dead?
  {
    var go := Continue(true);
    var s1 := s.Goto(0, Looking);
    var s2 := s1.Goto(1, Looking);
    var s3 := s2.Goto(0, Taking);
    var s4 := s3.Goto(1, Taking);
    var s5 := s4.(available := []).Goto(0, Recording(s.available[0], false));
    var s6 := s5.Goto(1, Dead);
    assert s4.available[1..] == [];
    RunOne(s5, target, 1, go);
    RunMore(s4, target, 0, go, [Move(1, go)], s6);
    RunMore(s3, target, 1, go, [Move(0, go), Move(1, go)], s6);
    RunMore(s2, target, 0, go, [Move(1, go), Move(0, go), Move(1, go)], s6);
    RunMore(s1, target, 1, CallCheckout, [Move(0, go), Move(1, go), Move(0, go), Move(1, go)], s6);
    RunMore(s, target, 0, CallCheckout,
            [Move(1, CallCheckout), Move(0, go), Move(1, go), Move(0, go), Move(1, go)], s6);
  }

  /** A checkout that nobody disturbs hands out the only sandbox there is. */
  lemma CheckoutTakesLast(s: Pool, target: nat, x: SandboxId)
    requires |s.tasks| >= 2 && s.tasks[1].pc.Idle? && !s.Locked() && s.available == [x]
    ensures exists moves, t ::
              Runs(s, target, moves, t) && |t.tasks| >= 2
              && t.tasks[0] == s.tasks[0] && x in t.tasks[1].holds
  {
    var go := Continue(true);
    var s1 := s.Goto(1, Looking);
    var s2 := s1.Goto(1, Taking);
    var s3 := s2.(available := []).Goto(1, Recording(x, false));
    var s4 := Next(s3, target, 1, go);
    assert s2.available[1..] == [];
    RunOne(s3, target, 1, go);
    RunMore(s2, target, 1, go, [Move(1, go)], s4);
    RunMore(s1, target, 1, go, [Move(1, go), Move(1, go)], s4);
    RunMore(s, target, 1, CallCheckout, [Move(1, go), Move(1, go), Move(1, go)], s4);
  }

  /** And a client that gives back what another one holds gets it from the pool in turn. */
  lemma ForeignReleaseShares(s: Pool, target: nat, x: SandboxId)
    requires |s.tasks| >= 2 && s.tasks[1].pc.Idle? && !s.Locked() && s.available == []
    requires x in s.tasks[0].holds && x in s.inUse
    ensures exists moves, t ::
              Runs(s, target, moves, t) && |t.tasks| >= 2 && x in t.tasks[0].holds && x in t.tasks[1].holds
  {
    var go := Continue(true);
    var s1 := Next(s, target, 1, CallRelease(x));
    var s2 := Next(s1, target, 1, go);
    var s3 := Next(s2, target, 1, go);
    assert s3.available == [x] && s3.tasks[1].pc.Idle? && !s3.Locked();
    CheckoutTakesLast(s3, target, x);
    var moves, t :| Runs(s3, target, moves, t) && |t.tasks| >= 2
                    && t.tasks[0] == s3.tasks[0] && x in t.tasks[1].holds;
    hide Runs, Next;
    RunMore(s2, target, 1, go, moves, t);
    RunMore(s1, target, 1, go, [Move(1, go)] + moves, t);
    RunMore(s, target, 1, CallRelease(x), [Move(1, go)] + ([Move(1, go)] + moves), t);
  }

  // ---- From a new pool ----

  lemma {:induction false} RunsJoin(s: Pool, target: nat, moves: seq<Move>, t: Pool, more: seq<Move>, u: Pool)
    requires Runs(s, target, moves, t) && Runs(t, target, more, u)
    ensures Runs(s, target, moves + more, u)
    decreases |moves|
  {
    if moves == [] {
      assert moves + more == more;
    } else {
      RunsJoin(Next(s, target, moves[0].task, moves[0].event), target, moves[1..], t, more, u);
      assert (moves + more)[1..] == moves[1..] + more;
    }
  }

  /** The pool is empty, and the first task holds a sandbox that was restored for it. */
  ghost predicate FirstHolds(s: Pool) {
    && s.available == [] && s.inUse == {0} && |s.tasks| == 2
    && s.tasks[0] == Task(Idle, {0}) && s.tasks[1] == Task(Idle, {})
  }

  lemma FirstRestores(target: nat)
    ensures exists moves, t :: Runs(Start(2), target, moves, t) && FirstHolds(t)
  {
    var go := Continue(true);
    var s := Start(2);
    var s1 := s.Goto(0, TakingOrRestoring);
    var s2 := s1.Goto(0, Restoring);
    var s3 := s2.(issued := 1).Goto(0, Recording(0, false));
    var s4 := Next(s3, target, 0, go);
    assert FirstHolds(s4);
    RunOne(s3, target, 0, go);
    RunMore(s2, target, 0, go, [Move(0, go)], s4);
    RunMore(s1, target, 0, go, [Move(0, go), Move(0, go)], s4);
    RunMore(s, target, 0, CallCheckoutOrRestore, [Move(0, go), Move(0, go), Move(0, go)], s4);
  }

  lemma FirstReturns(s: Pool, target: nat)
    requires FirstHolds(s)
    ensures exists moves, t ::
              && Runs(s, target, moves, t) && t.available == [0]
              && |t.tasks| == 2 && t.tasks[0].pc.Idle? && t.tasks[1].pc.Idle?
  {
    var go := Continue(true);
    var s1 := Next(s, target, 0, CallRelease(0));
    var s2 := Next(s1, target, 0, go);
    var s3 := Next(s2, target, 0, go);
    assert s3.available == [0];
    RunOne(s2, target, 0, go);
    RunMore(s1, target, 0, go, [Move(0, go)], s3);
    RunMore(s, target, 0, CallRelease(0), [Move(0, go), Move(0, go)], s3);
  }

  /** For every target two tasks of a new pool come to a panic. */
  lemma NewPoolDies(target: nat)
    ensures exists moves, t :: Runs(Start(2), target, moves, t) && |t.tasks| >= 2 && t.tasks[1].pc.Dead?
  {
    FirstRestores(target);
    var one, s :| Runs(Start(2), target, one, s) && FirstHolds(s);
    FirstReturns(s, target);
    var two, t :| && Runs(s, target, two, t) && t.available == [0]
                  && |t.tasks| == 2 && t.tasks[0].pc.Idle? && t.tasks[1].pc.Idle?;
    RaceDies(t, target);
    var three, u :| Runs(t, target, three, u) && |u.tasks| >= 2 && u.tasks[1].pc.Dead?;
    hide Runs;
    RunsJoin(Start(2), target, one, s, two, t);
    RunsJoin(Start(2), target, one + two, t, three, u);
  }

  /** For every target two clients of a new pool can come to hold the same sandbox. */
  lemma NewPoolShares(target: nat)
    ensures exists moves, t ::
              Runs(Start(2), target, moves, t) && |t.tasks| >= 2 && 0 in t.tasks[0].holds && 0 in t.tasks[1].holds
  {
    FirstRestores(target);
    var one, s :| Runs(Start(2), target, one, s) && FirstHolds(s);
    ForeignReleaseShares(s, target, 0);
    var two, t :| Runs(s, target, two, t) && |t.tasks| >= 2 && 0 in t.tasks[0].holds && 0 in t.tasks[1].holds;
    hide Runs;
    RunsJoin(Start(2), target, one, s, two, t);
  }

  lemma RunOne(s: Pool, target: nat, i: nat, e: Event)
    requires Enabled(s, i, e)
    ensures Runs(s, target, [Move(i, e)], Next(s, target, i, e))
  {
    assert [Move(i, e)][1..] == [];
  }

  lemma RunMore(s: Pool, target: nat, i: nat, e: Event, moves: seq<Move>, t: Pool)
    requires Enabled(s, i, e) && Runs(Next(s, target, i, e), target, moves, t)
    ensures Runs(s, target, [Move(i, e)] + moves, t)
  {
    assert ([Move(i, e)] + moves)[1..] == moves;
  }
}
