/** Exactly which heads sleep: for every head of every line, tried or not, in every run,
    when it has no signal, its lock no row, and nobody a wakeup for it on the way. */
module LockSleepers {
  import opened Base
  import opened WaitQueues
  import opened LockProtocol
  import opened LockLines
  import opened LockWakeups

  /** A head that a reaper has noted for a line is in no other line. */
  ghost predicate Noted(w: World) {
    forall p, n | p in w.procs && (w.procs[p].Probing? || w.procs[p].Poking?) && n in w.procs[p].heads ::
      w.procs[p].heads[n] in w.arrivals && HomeIs(w, w.procs[p].heads[n], n)
  }

  ghost predicate HomeIs(w: World, id: Token, name: string) {
    forall m :: InLine(Line(w, m), id) ==> m == name
  }

  ghost predicate WellArranged(w: World) {
    LinesKept(w) && AtHome(w) && Noted(w)
  }

  lemma HomeKept(w: World, a: Action, id: Token, name: string)
    requires LinesKept(w) && AtHome(w) && Enabled(w, a) && id in w.arrivals && HomeIs(w, id, name)
    ensures HomeIs(Next(w, a), id, name)
  {
    forall m | InLine(Line(Next(w, a), m), id) ensures m == name {
      if a.JoinLine? { JoinedLines(w, a.p, a.newId, m, id); } else { ShrinkOnly(w, a, m, id); }
    }
  }

  /** What a reaper has noted after a step it had noted before, unless it has just swept. */
  lemma NotedBefore(w: World, a: Action, p: nat)
    requires Enabled(w, a) && p in Next(w, a).procs && !(a.SweepLines? && a.p == p)
    requires Next(w, a).procs[p].Probing? || Next(w, a).procs[p].Poking?
    ensures p in w.procs && (w.procs[p].Probing? || w.procs[p].Poking?)
    ensures forall n | n in Next(w, a).procs[p].heads ::
              n in w.procs[p].heads && w.procs[p].heads[n] == Next(w, a).procs[p].heads[n]
  {
    if a.Tick? || a.p != p { OthersUntouched(w, a, p); }
  }

  lemma StepKeepsNoted(w: World, a: Action)
    requires WellArranged(w) && Enabled(w, a)
    ensures Noted(Next(w, a))
  {
    var w' := Next(w, a);
    StepKeepsLines(w, a);
    StepKeepsHome(w, a);
    forall p, n | p in w'.procs && (w'.procs[p].Probing? || w'.procs[p].Poking?) && n in w'.procs[p].heads
      ensures w'.procs[p].heads[n] in w'.arrivals && HomeIs(w', w'.procs[p].heads[n], n)
    {
      if a.SweepLines? && a.p == p {
        assert IsHead(Line(w', n), w'.procs[p].heads[n]);
        HeadIndex(Line(w', n), w'.procs[p].heads[n]);
      } else {
        NotedBefore(w, a, p);
        HomeKept(w, a, w'.procs[p].heads[n], n);
      }
    }
  }

  lemma StepKeepsArranged(w: World, a: Action)
    requires WellArranged(w) && Enabled(w, a)
    ensures WellArranged(Next(w, a))
  {
    StepKeepsLines(w, a);
    StepKeepsHome(w, a);
    StepKeepsNoted(w, a);
  }

  lemma {:induction false} RunKeepsArranged(w: World, acts: seq<Action>)
    requires WellArranged(w) && Feasible(w, acts)
    ensures WellArranged(Run(w, acts))
    decreases |acts|
  {
    if acts != [] {
      StepKeepsArranged(w, acts[0]);
      RunKeepsArranged(Next(w, acts[0]), acts[1..]);
    }
  }

  lemma ReachableArranged(w: World)
    requires Reachable(w)
    ensures WellArranged(w)
  {
    var clock: int, acts: seq<Action> :| Feasible(Start(clock), acts) && w == Run(Start(clock), acts);
    RunKeepsArranged(Start(clock), acts);
  }

  // ----- one step -----

  /** A head with no signal, no row and no wakeup on its way. */
  ghost predicate Sleeps(w: World, name: string, id: Token) {
    IsHead(Line(w, name), id) && !Attended(w, name, id)
  }

  /** The winner ahead of `id` leaves the line when its row has already gone again, and
      neither a signal for `id` nor anyone who owes it one is there. */
  ghost predicate PromotesASleeper(w: World, a: Action, name: string, id: Token)
    requires Enabled(w, a)
  {
    && a.Dequeue? && w.procs[a.p].call.name == name
    && !IsHead(Line(w, name), id) && IsHead(Line(Next(w, a), name), id)
    && name !in w.table && id !in w.pending && !OnItsWay(w, name, id)
  }

  /** What ends a sleep: a reaper pass under way, a grant of the lock, or a re-attach. */
  ghost predicate Rouses(w: World, a: Action, name: string, id: Token)
    requires Enabled(w, a)
  {
    || a.PurgeTx?
    || name in Next(w, a).table
    || (a.JoinLine? && w.procs[a.p].call.name == name && w.procs[a.p].call.wake == id)
  }

  /** A commit that rouses nobody leaves its call carrying nothing for the head. */
  lemma CommittersCarryNothing(w: World, a: Action, name: string, id: Token)
    requires Enabled(w, a) && Commits(a) && a.p in Next(w, a).procs
    requires !Rouses(w, a, name, id) && name !in w.table
    ensures !Carries(Next(w, a).procs[a.p], name, id)
  {
  }

  /** Nobody starts to carry a wakeup for a sleeping head but by rousing it. */
  lemma CarrierWasThere(w: World, a: Action, name: string, id: Token)
    requires WellArranged(w) && Enabled(w, a) && !a.Tick? && IsHead(Line(w, name), id)
    requires a.p in Next(w, a).procs && Carries(Next(w, a).procs[a.p], name, id) && !Rouses(w, a, name, id)
    requires name !in w.table && id !in w.pending
    ensures a.p in w.procs && Carries(w.procs[a.p], name, id)
  {
    HeadIndex(Line(w, name), id);
    if Commits(a) {
      CommittersCarryNothing(w, a, name, id);
    } else if a.Probe? {
      assert HomeIs(w, w.procs[a.p].heads[a.name], a.name);
    }
  }

  lemma SleepLasts(w: World, a: Action, name: string, id: Token)
    requires WellArranged(w) && Enabled(w, a) && Sleeps(w, name, id) && !Rouses(w, a, name, id)
    requires IsHead(Line(Next(w, a), name), id)
    ensures Sleeps(Next(w, a), name, id)
  {
    var w' := Next(w, a);
    forall q | q in w'.procs ensures !Carries(w'.procs[q], name, id) {
      if a.Tick? || a.p != q {
        OthersUntouched(w, a, q);
      } else if Carries(w'.procs[q], name, id) {
        CarrierWasThere(w, a, name, id);
      }
    }
  }

  lemma RousedIsAttended(w: World, a: Action, name: string, id: Token)
    requires WellArranged(w) && Enabled(w, a) && Rouses(w, a, name, id) && IsHead(Line(w, name), id)
    ensures Attended(Next(w, a), name, id)
  {
    var w' := Next(w, a);
    if a.PurgeTx? {
      assert w'.procs[a.p].Sweeping?;
    } else if a.JoinLine? {
      HeadIndex(Line(w, name), id);
      assert Line(w, name)[0].id in w.arrivals;
      if name !in w'.table { assert Carries(w'.procs[a.p], name, id); }
    }
  }

  /** A slot that becomes the head by joining or by a sweep has someone who will try for
      it or signal it; by a dequeue it has whoever it had before. */
  lemma NewHead(w: World, a: Action, name: string, id: Token)
    requires WellArranged(w) && Enabled(w, a)
    requires !IsHead(Line(w, name), id) && IsHead(Line(Next(w, a), name), id)
    ensures Sleeps(Next(w, a), name, id) <==> PromotesASleeper(w, a, name, id)
  {
    var w' := Next(w, a);
    HeadIndex(Line(w, name), id);
    HeadIndex(Line(w', name), id);
    if a.JoinLine? {
      JoinerIsNewHead(w, a.p, a.newId, name, id);
    } else if a.SweepLines? {
      assert w'.procs[a.p] == Probing(w.procs[a.p].now, Heads(w'.queues));
      assert Carries(w'.procs[a.p], name, id);
    } else if a.Dequeue? {
      DequeuePromotes(w, a.p, name, id);
    } else {
      QuietKeepsOrder(w, a);
    }
  }

  lemma JoinerIsNewHead(w: World, p: nat, newId: Token, name: string, id: Token)
    requires WellArranged(w) && Enabled(w, JoinLine(p, newId))
    requires !IsHead(Line(w, name), id) && IsHead(Line(Next(w, JoinLine(p, newId)), name), id)
    ensures Attended(Next(w, JoinLine(p, newId)), name, id)
  {
    var w' := Next(w, JoinLine(p, newId));
    HeadIndex(Line(w, name), id);
    HeadIndex(Line(w', name), id);
    JoinedLines(w, p, newId, name, id);
    if InLine(Line(w, name), id) {
      assert Line(w, name)[IndexOf(Line(w, name), id)].id in w.arrivals;
      var call := w.procs[p].call;
      var horizon := Horizon(w.clock, call.ttl, ClampWait(call.wait));
      LineAfterPut(w.queues, call.name, Join(Line(w, call.name), call.agent, call.wake, newId, horizon), name);
      JoinKeepsPlaces(Line(w, call.name), call.agent, call.wake, newId, horizon, id);
    } else {
      assert Carries(w'.procs[p], name, id);
    }
  }

  lemma DequeuePromotes(w: World, p: nat, name: string, id: Token)
    requires WellArranged(w) && Enabled(w, Dequeue(p))
    requires !IsHead(Line(w, name), id) && IsHead(Line(Next(w, Dequeue(p)), name), id)
    ensures w.procs[p].call.name == name
    ensures OnItsWay(w, name, id) <==> OnItsWay(Next(w, Dequeue(p)), name, id)
  {
    var w', x := Next(w, Dequeue(p)), w.procs[p];
    LineAfterPut(w.queues, x.call.name, Leave(Line(w, x.call.name), x.id), name);
    forall q | q in w.procs && Carries(w.procs[q], name, id) ensures q in w'.procs && w'.procs[q] == w.procs[q] {
      assert q != p;
    }
  }

  /** Exactly when a head sleeps after a step: it was just promoted by the dequeue of a
      winner whose row had already gone again, with no signal and nobody owing it one;
      or it slept before and the step did not rouse it. */
  lemma SleepStepExactly(w: World, a: Action, name: string, id: Token)
    requires WellArranged(w) && Enabled(w, a) && IsHead(Line(Next(w, a), name), id)
    ensures Sleeps(Next(w, a), name, id)
        <==> PromotesASleeper(w, a, name, id) || (Sleeps(w, name, id) && !Rouses(w, a, name, id))
  {
    if !IsHead(Line(w, name), id) {
      NewHead(w, a, name, id);
    } else if Attended(w, name, id) {
      StaysAttended(w, a, name, id);
    } else if Rouses(w, a, name, id) {
      RousedIsAttended(w, a, name, id);
    } else {
      SleepLasts(w, a, name, id);
    }
  }

  // ----- whole runs -----

  /** Some step of the run rouses the head `id` of `name`. */
  ghost predicate Roused(w: World, acts: seq<Action>, name: string, id: Token)
    requires Feasible(w, acts)
    decreases |acts|
  {
    acts != [] && (Rouses(w, acts[0], name, id) || Roused(Next(w, acts[0]), acts[1..], name, id))
  }

  /** Some step of the run promotes `id` to a sleeping head of `name`, and none after it
      rouses it. */
  ghost predicate LeftAsleep(w: World, acts: seq<Action>, name: string, id: Token)
    requires Feasible(w, acts)
    decreases |acts|
  {
    && acts != []
    && (|| (PromotesASleeper(w, acts[0], name, id) && !Roused(Next(w, acts[0]), acts[1..], name, id))
        || LeftAsleep(Next(w, acts[0]), acts[1..], name, id))
  }

  /** A head that is the head at the end of a run was the head throughout. */
  lemma HeadThroughout(w: World, acts: seq<Action>, name: string, id: Token)
    requires WellArranged(w) && Feasible(w, acts) && acts != []
    requires IsHead(Line(w, name), id) && IsHead(Line(Run(w, acts), name), id)
    ensures IsHead(Line(Next(w, acts[0]), name), id)
  {
    var w', end := Next(w, acts[0]), Run(w, acts);
    StepKeepsLines(w, acts[0]);
    RunKeepsLines(w', acts[1..]);
    assert Line(w, name)[0].id in w.arrivals;
    assert NotBehind(Line(w, name), Line(w', name), id) && NotBehind(Line(w', name), Line(end, name), id);
    HeadIndex(Line(w, name), id);
    HeadIndex(Line(w', name), id);
    HeadIndex(Line(end, name), id);
  }

  lemma {:induction false} AttendedWhileHead(w: World, acts: seq<Action>, name: string, id: Token)
    requires WellArranged(w) && Feasible(w, acts)
    requires IsHead(Line(w, name), id) && IsHead(Line(Run(w, acts), name), id)
    ensures Attended(Run(w, acts), name, id) <==> Attended(w, name, id) || Roused(w, acts, name, id)
    decreases |acts|
  {
    if acts != [] {
      HeadThroughout(w, acts, name, id);
      SleepStepExactly(w, acts[0], name, id);
      StepKeepsArranged(w, acts[0]);
      AttendedWhileHead(Next(w, acts[0]), acts[1..], name, id);
    }
  }

  /** From a reachable world in which `id` is the head: while it stays the head, it is
      attended if and only if it was attended at first or some step has roused it since. */
  lemma AttendedExactly(w: World, acts: seq<Action>, name: string, id: Token)
    requires Reachable(w) && Feasible(w, acts)
    requires IsHead(Line(w, name), id) && IsHead(Line(Run(w, acts), name), id)
    ensures Attended(Run(w, acts), name, id) <==> Attended(w, name, id) || Roused(w, acts, name, id)
  {
    ReachableArranged(w);
    AttendedWhileHead(w, acts, name, id);
  }

  lemma {:induction false} SleepsAfterRun(w: World, acts: seq<Action>, name: string, id: Token)
    requires WellArranged(w) && Feasible(w, acts) && IsHead(Line(Run(w, acts), name), id)
    ensures Sleeps(Run(w, acts), name, id)
        <==> LeftAsleep(w, acts, name, id) || (Sleeps(w, name, id) && !Roused(w, acts, name, id))
    decreases |acts|
  {
    if acts != [] {
      StepKeepsArranged(w, acts[0]);
      SleepsAfterRun(Next(w, acts[0]), acts[1..], name, id);
      if IsHead(Line(w, name), id) { HeadThroughout(w, acts, name, id); }
      if IsHead(Line(Next(w, acts[0]), name), id) {
        SleepStepExactly(w, acts[0], name, id);
      }
    }
  }

  /** The lock wakeup theorem for every head, tried or not, of every line in every run:
      it is without a signal, a row and a wakeup on its way if and only if some step of
      the run was the dequeue of a winner on that lock whose row had already gone again,
      which promoted it while it had neither signal nor anyone owing it one, and since
      then no purge has begun a reaper pass, no grant has taken the lock, and no call has
      re-attached to the slot. */
  lemma HeadSleepsExactly(clock: int, acts: seq<Action>, name: string, id: Token)
    requires Feasible(Start(clock), acts) && IsHead(Line(Run(Start(clock), acts), name), id)
    ensures var w := Run(Start(clock), acts);
            (id !in w.pending && name !in w.table && !OnItsWay(w, name, id)
             <==> LeftAsleep(Start(clock), acts, name, id))
  {
    SleepsAfterRun(Start(clock), acts, name, id);
  }
}
