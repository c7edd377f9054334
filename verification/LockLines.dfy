/** The waiting lines over every interleaving: they stay in arrival order, nobody is
    pushed back, exactly two guards take a slot out, and callers who keep two rules
    are served first come, first served. */
module LockLines {
  import opened Base
  import opened WaitQueues
  import opened LockProtocol
  import opened LockSafety

  /** Every line is in arrival order. */
  ghost predicate Orderly(w: World) {
    && NoEmptyQueue(w.queues)
    && (forall n :: InArrivalOrder(Line(w, n), w.arrivals))
    && (forall id | id in w.arrivals :: id in w.minted && id != "")
  }

  /** A call that saw itself at the head is there still, if it is in line at all. */
  ghost predicate StillHead(w: World, x: Proc)
    requires Attached(x)
  {
    InLine(Line(w, x.call.name), x.id) ==> IsHead(Line(w, x.call.name), x.id)
  }

  ghost predicate CallKept(w: World, x: Proc) {
    Attached(x) ==> x.id in w.arrivals && (SawHead(x) ==> StillHead(w, x))
  }

  /** What every reachable world keeps about the lines. */
  ghost predicate LinesKept(w: World) {
    && Orderly(w)
    && (forall p | p in w.procs :: CallKept(w, w.procs[p]))
  }

  // ----- the three steps that change a line -----

  lemma HeadIndex(q: seq<Slot>, id: Token)
    ensures IsHead(q, id) <==> InLine(q, id) && IndexOf(q, id) == 0
  {
  }

  lemma NotInLog(q: seq<Slot>, log: seq<Token>, id: Token)
    requires InArrivalOrder(q, log) && id !in log
    ensures !InLine(q, id)
  {
  }

  lemma NewRank(log: seq<Token>, id: Token)
    requires id !in log
    ensures Rank(log + [id], id) == |log|
  {
    assert (log + [id])[|log|] == id;
    assert forall i :: 0 <= i < |log| ==> (log + [id])[i] == log[i];
  }

  lemma OrderStable(q: seq<Slot>, log: seq<Token>, later: seq<Token>)
    requires InArrivalOrder(q, log)
    ensures InArrivalOrder(q, log + later)
  {
    forall i | 0 <= i < |q| ensures q[i].id in log + later && Rank(log + later, q[i].id) == Rank(log, q[i].id) {
      RankStable(log, later, q[i].id);
    }
  }

  lemma AppendInOrder(q: seq<Slot>, log: seq<Token>, s: Slot)
    requires InArrivalOrder(q, log) && s.id !in log
    ensures InArrivalOrder(q + [s], log + [s.id])
  {
    OrderStable(q, log, [s.id]);
    NewRank(log, s.id);
    forall i | 0 <= i < |q| ensures Rank(log + [s.id], q[i].id) < |log| {
      RankStable(log, [s.id], q[i].id);
    }
  }

  lemma JoinInOrder(q: seq<Slot>, log: seq<Token>, agent: string, wake: Token, newId: Token, horizon: int)
    requires InArrivalOrder(q, log) && newId !in log
    ensures Reattaches(q, wake) ==> InArrivalOrder(Join(q, agent, wake, newId, horizon), log)
    ensures !Reattaches(q, wake) ==> InArrivalOrder(Join(q, agent, wake, newId, horizon), log + [newId])
  {
    if Reattaches(q, wake) {
      assert forall i :: 0 <= i < |q| ==> Join(q, agent, wake, newId, horizon)[i].id == q[i].id;
    } else {
      AppendInOrder(q, log, Slot(newId, agent, horizon));
    }
  }

  lemma {:induction false} SameIds(q: seq<Slot>, q': seq<Slot>, id: Token)
    requires |q| == |q'| && forall i :: 0 <= i < |q| ==> q[i].id == q'[i].id
    ensures IndexOf(q, id) == IndexOf(q', id)
  {
    if q != [] && q[0].id != id { SameIds(q[1..], q'[1..], id); }
  }

  lemma {:induction false} AppendIndex(q: seq<Slot>, s: Slot, id: Token)
    requires InLine(q, id)
    ensures IndexOf(q + [s], id) == IndexOf(q, id)
  {
    if q[0].id != id {
      AppendIndex(q[1..], s, id);
      assert (q + [s])[1..] == q[1..] + [s];
    }
  }

  /** A newcomer goes to the tail; a caller showing a wake token of the line keeps
      its place and adds no entry; nobody else moves. */
  lemma JoinKeepsPlaces(q: seq<Slot>, agent: string, wake: Token, newId: Token, horizon: int, id: Token)
    ensures InLine(q, id) ==> InLine(Join(q, agent, wake, newId, horizon), id)
                              && IndexOf(Join(q, agent, wake, newId, horizon), id) == IndexOf(q, id)
    ensures InLine(Join(q, agent, wake, newId, horizon), id) && id != newId ==> InLine(q, id)
    ensures InLine(Join(q, agent, wake, newId, horizon), JoinedAs(q, wake, newId))
    ensures Reattaches(q, wake) ==> |Join(q, agent, wake, newId, horizon)| == |q|
  {
    var j := Join(q, agent, wake, newId, horizon);
    if Reattaches(q, wake) {
      SameIds(q, j, id);
      SameIds(q, j, wake);
    } else {
      if InLine(q, id) { AppendIndex(q, Slot(newId, agent, horizon), id); }
      if InLine(j, id) && id != newId { assert j[IndexOf(j, id)] in q; }
      assert j[|q|].id == newId;
      IndexOfFinds(j, |q|);
    }
  }

  lemma IndexOfFinds(q: seq<Slot>, i: nat)
    requires i < |q|
    ensures IndexOf(q, q[i].id) <= i
  {
  }

  lemma LineAfterPut(qs: Queues, name: string, q: seq<Slot>, n: string)
    ensures QueueOf(Put(qs, name, q), n) == if n == name then q else QueueOf(qs, n)
    ensures NoEmptyQueue(qs) ==> NoEmptyQueue(Put(qs, name, q))
  {
  }

  lemma LineAfterSweep(qs: Queues, now: int, n: string)
    requires NoEmptyQueue(qs)
    ensures QueueOf(SweepAll(qs, now), n) == Sweep(QueueOf(qs, n), now)
    ensures NoEmptyQueue(SweepAll(qs, now))
  {
  }

  // ----- every step -----

  /** Nobody known in `w` stands further back in `w'`. */
  ghost predicate NobodyPushedBack(w: World, w': World) {
    forall n, id :: id in w.minted ==> NotBehind(Line(w, n), Line(w', n), id)
  }

  lemma JoinKeepsOrder(w: World, p: nat, newId: Token)
    requires Orderly(w) && Enabled(w, JoinLine(p, newId))
    ensures Orderly(Next(w, JoinLine(p, newId))) && NobodyPushedBack(w, Next(w, JoinLine(p, newId)))
    ensures Next(w, JoinLine(p, newId)).procs[p].id in Next(w, JoinLine(p, newId)).arrivals
    ensures w.arrivals <= Next(w, JoinLine(p, newId)).arrivals
  {
    var w', call := Next(w, JoinLine(p, newId)), w.procs[p].call;
    var q := Line(w, call.name);
    var horizon := Horizon(w.clock, call.ttl, ClampWait(call.wait));
    var q' := Join(q, call.agent, call.wake, newId, horizon);
    assert newId !in w.arrivals;
    forall n ensures InArrivalOrder(Line(w', n), w'.arrivals) {
      LineAfterPut(w.queues, call.name, q', n);
      if n == call.name {
        JoinInOrder(q, w.arrivals, call.agent, call.wake, newId, horizon);
      } else {
        OrderStable(Line(w, n), w.arrivals, w'.arrivals[|w.arrivals|..]);
      }
    }
    LineAfterPut(w.queues, call.name, q', call.name);
    if Reattaches(q, call.wake) { assert q[IndexOf(q, call.wake)].id in w.arrivals; }
    forall n, id | id in w.minted ensures NotBehind(Line(w, n), Line(w', n), id) {
      LineAfterPut(w.queues, call.name, q', n);
      JoinKeepsPlaces(q, call.agent, call.wake, newId, horizon, id);
    }
  }

  lemma DequeueKeepsOrder(w: World, p: nat)
    requires Orderly(w) && Enabled(w, Dequeue(p))
    ensures Orderly(Next(w, Dequeue(p))) && NobodyPushedBack(w, Next(w, Dequeue(p)))
  {
    var w', x := Next(w, Dequeue(p)), w.procs[p];
    var q := Line(w, x.call.name);
    LineAfterPut(w.queues, x.call.name, Leave(q, x.id), x.call.name);
    forall n ensures InArrivalOrder(Line(w', n), w'.arrivals)
      ensures forall id :: NotBehind(Line(w, n), Line(w', n), id)
    {
      LineAfterPut(w.queues, x.call.name, Leave(q, x.id), n);
      forall id { KeepShortens(q, Other(x.id), w.arrivals, id); }
      assert Line(w', n) == if n == x.call.name then Leave(q, x.id) else Line(w, n);
    }
  }

  lemma SweepKeepsOrder(w: World, p: nat)
    requires Orderly(w) && Enabled(w, SweepLines(p))
    ensures Orderly(Next(w, SweepLines(p))) && NobodyPushedBack(w, Next(w, SweepLines(p)))
  {
    var w', now := Next(w, SweepLines(p)), w.procs[p].now;
    LineAfterSweep(w.queues, now, "");
    forall n ensures InArrivalOrder(Line(w', n), w'.arrivals)
      ensures forall id :: NotBehind(Line(w, n), Line(w', n), id)
    {
      LineAfterSweep(w.queues, now, n);
      forall id { KeepShortens(Line(w, n), Lasting(now), w.arrivals, id); }
    }
  }

  lemma StepKeepsOrder(w: World, a: Action)
    requires Orderly(w) && Enabled(w, a)
    ensures Orderly(Next(w, a)) && NobodyPushedBack(w, Next(w, a))
    ensures w.arrivals <= Next(w, a).arrivals && w.minted <= Next(w, a).minted
  {
    if a.JoinLine? {
      JoinKeepsOrder(w, a.p, a.newId);
    } else if a.Dequeue? {
      DequeueKeepsOrder(w, a.p);
    } else if a.SweepLines? {
      SweepKeepsOrder(w, a.p);
    } else {
      QuietKeepsOrder(w, a);
    }
  }

  /** Every other step touches neither the lines nor the log. */
  lemma QuietKeepsOrder(w: World, a: Action)
    requires Orderly(w) && Enabled(w, a)
    requires !a.JoinLine? && !a.Dequeue? && !a.SweepLines?
    ensures Orderly(Next(w, a)) && NobodyPushedBack(w, Next(w, a))
    ensures Next(w, a).arrivals == w.arrivals && Next(w, a).queues == w.queues && w.minted <= Next(w, a).minted
  {
    var w' := Next(w, a);
    assert w'.queues == w.queues && w'.arrivals == w.arrivals && w.minted <= w'.minted;
    assert forall n :: Line(w', n) == Line(w, n);
  }

  lemma CallStaysKept(w: World, w': World, x: Proc)
    requires CallKept(w, x) && Orderly(w) && NobodyPushedBack(w, w') && w.arrivals <= w'.arrivals
    ensures CallKept(w', x)
  {
    if Attached(x) {
      var n := x.call.name;
      assert NotBehind(Line(w, n), Line(w', n), x.id);
      HeadIndex(Line(w, n), x.id);
      HeadIndex(Line(w', n), x.id);
    }
  }

  lemma StepKeepsLines(w: World, a: Action)
    requires LinesKept(w) && Enabled(w, a)
    ensures LinesKept(Next(w, a)) && NobodyPushedBack(w, Next(w, a))
    ensures w.arrivals <= Next(w, a).arrivals && w.minted <= Next(w, a).minted
  {
    var w' := Next(w, a);
    StepKeepsOrder(w, a);
    forall p | p in w'.procs ensures CallKept(w', w'.procs[p]) {
      if a.Tick? || a.p != p {
        OthersUntouched(w, a, p);
        CallStaysKept(w, w', w.procs[p]);
      } else if a.JoinLine? {
        JoinKeepsOrder(w, p, a.newId);
      } else if p in w.procs {
        CallStaysKept(w, w', w.procs[p]);
        ActorKept(w, a);
      }
    }
  }

  lemma ActorKept(w: World, a: Action)
    requires LinesKept(w) && Enabled(w, a) && !a.Tick? && !a.JoinLine? && a.p in w.procs
    requires CallKept(Next(w, a), w.procs[a.p])
    ensures a.p in Next(w, a).procs ==> CallKept(Next(w, a), Next(w, a).procs[a.p])
  {
    if Commits(a) { CommitterKept(w, a); }
  }

  lemma CommitterKept(w: World, a: Action)
    requires Enabled(w, a) && Commits(a) && a.p in w.procs
    requires CallKept(Next(w, a), w.procs[a.p])
    ensures a.p in Next(w, a).procs ==> CallKept(Next(w, a), Next(w, a).procs[a.p])
  {
  }

  /** A re-poll keeps its place, wherever in line it stands: the line keeps its length and
      all its slots in their order, only the horizon of the caller's own slot is set anew,
      nothing is added to the log, and the call continues on that slot. */
  lemma RepollKeepsItsPlace(w: World, p: nat, newId: Token, i: nat)
    requires Reachable(w) && Enabled(w, JoinLine(p, newId)) && i < |Line(w, w.procs[p].call.name)|
    requires Line(w, w.procs[p].call.name)[i].id == w.procs[p].call.wake
    ensures var w', call := Next(w, JoinLine(p, newId)), w.procs[p].call;
            var q, q' := Line(w, call.name), Line(w', call.name);
            && |q'| == |q| && (forall j :: 0 <= j < |q| && j != i ==> q'[j] == q[j])
            && q'[i].id == q[i].id && q'[i].agent == q[i].agent
            && q'[i].horizon == w.clock + Larger(2 * call.ttl, ClampWait(call.wait) + 30)
            && w'.arrivals == w.arrivals && w'.procs[p].id == call.wake
  {
    ReachableLines(w);
    var call := w.procs[p].call;
    var q := Line(w, call.name);
    var horizon := Horizon(w.clock, call.ttl, ClampWait(call.wait));
    ReattachAt(q, w.arrivals, call.agent, newId, horizon, i);
    assert q[i].id in w.arrivals;
    LineAfterPut(w.queues, call.name, Join(q, call.agent, call.wake, newId, horizon), call.name);
  }

  lemma ReattachAt(q: seq<Slot>, log: seq<Token>, agent: string, newId: Token, horizon: int, i: nat)
    requires InArrivalOrder(q, log) && i < |q|
    ensures q[i].id != "" ==>
              && Reattaches(q, q[i].id)
              && Join(q, agent, q[i].id, newId, horizon) == q[i := q[i].(horizon := horizon)]
  {
    DistinctIds(q, log, i);
  }

  /** Everyone else gets a new slot of their own behind everyone in line. */
  lemma NewcomerGoesToTheTail(w: World, p: nat, newId: Token)
    requires Enabled(w, JoinLine(p, newId))
    requires w.procs[p].call.wake == "" || forall s | s in Line(w, w.procs[p].call.name) :: s.id != w.procs[p].call.wake
    ensures var w', call := Next(w, JoinLine(p, newId)), w.procs[p].call;
            && Line(w', call.name) == Line(w, call.name)
                 + [Slot(newId, call.agent, w.clock + Larger(2 * call.ttl, ClampWait(call.wait) + 30))]
            && (forall n | n != call.name :: Line(w', n) == Line(w, n))
            && w'.arrivals == w.arrivals + [newId] && w'.procs[p].id == newId
  {
    var call := w.procs[p].call;
    var q := Line(w, call.name);
    var horizon := Horizon(w.clock, call.ttl, ClampWait(call.wait));
    forall n ensures n != call.name ==> Line(Next(w, JoinLine(p, newId)), n) == Line(w, n) {
      LineAfterPut(w.queues, call.name, Join(q, call.agent, call.wake, newId, horizon), n);
    }
  }

  lemma {:induction false} RunKeepsLines(w: World, acts: seq<Action>)
    requires LinesKept(w) && Feasible(w, acts)
    ensures LinesKept(Run(w, acts)) && w.arrivals <= Run(w, acts).arrivals
    ensures NobodyPushedBack(w, Run(w, acts))
    decreases |acts|
  {
    if acts != [] {
      var w' := Next(w, acts[0]);
      StepKeepsLines(w, acts[0]);
      RunKeepsLines(w', acts[1..]);
      var end := Run(w, acts);
      forall n, id | id in w.minted ensures NotBehind(Line(w, n), Line(end, n), id) {
        assert NotBehind(Line(w', n), Line(end, n), id) && NotBehind(Line(w, n), Line(w', n), id);
      }
    }
  }

  lemma ReachableLines(w: World)
    requires Reachable(w)
    ensures LinesKept(w)
  {
    var clock: int, acts: seq<Action> :| Feasible(Start(clock), acts) && w == Run(Start(clock), acts);
    RunKeepsLines(Start(clock), acts);
  }

  /** In every continuation of every reachable world, a waiter still in line stands
      no further back than before, and keeps its order relative to any other. */
  lemma PlacesNeverGetWorse(w: World, acts: seq<Action>, name: string, a: Token, b: Token)
    requires Reachable(w) && Feasible(w, acts)
    requires InLine(Line(w, name), a) && InLine(Line(Run(w, acts), name), a)
    ensures Position(Line(Run(w, acts), name), a) <= Position(Line(w, name), a)
    ensures InLine(Line(w, name), b) && InLine(Line(Run(w, acts), name), b) &&
            Position(Line(w, name), a) < Position(Line(w, name), b)
            ==> Position(Line(Run(w, acts), name), a) < Position(Line(Run(w, acts), name), b)
  {
    ReachableLines(w);
    RunKeepsLines(w, acts);
    var q, q' := Line(w, name), Line(Run(w, acts), name);
    assert q[IndexOf(q, a)].id == a && a in w.arrivals;
    assert NotBehind(q, q', a);
    if InLine(q, b) && InLine(q', b) && IndexOf(q, a) < IndexOf(q, b) {
      OrderPersists(q, w.arrivals, q', Run(w, acts).arrivals, a, b);
    }
  }

  lemma OrderPersists(q: seq<Slot>, log: seq<Token>, q': seq<Slot>, log': seq<Token>, a: Token, b: Token)
    requires InArrivalOrder(q, log) && InArrivalOrder(q', log') && log <= log'
    requires InLine(q, a) && InLine(q, b) && InLine(q', a) && InLine(q', b)
    requires IndexOf(q, a) < IndexOf(q, b)
    ensures IndexOf(q', a) < IndexOf(q', b)
  {
    AheadMeansEarlier(q, log, a, b);
    RankStable(log, log'[|log|..], a);
    RankStable(log, log'[|log|..], b);
    assert log' == log + log'[|log|..];
    AheadMeansEarlier(q', log', a, b);
  }

  /** Ahead in line if and only if earlier in the log. */
  lemma AheadMeansEarlier(q: seq<Slot>, log: seq<Token>, a: Token, b: Token)
    requires InArrivalOrder(q, log) && InLine(q, a) && InLine(q, b)
    ensures a in log && b in log
    ensures IndexOf(q, a) < IndexOf(q, b) <==> Rank(log, a) < Rank(log, b)
  {
    var i, j := IndexOf(q, a), IndexOf(q, b);
    assert q[i].id == a && q[j].id == b;
    if i < j { assert Rank(log, q[i].id) < Rank(log, q[j].id); }
    if j < i { assert Rank(log, q[j].id) < Rank(log, q[i].id); }
  }

  /** A slot that has left its line never comes back. */
  lemma GoneForGood(w: World, acts: seq<Action>, name: string, id: Token)
    requires Reachable(w) && Feasible(w, acts)
    requires id in w.arrivals && !InLine(Line(w, name), id)
    ensures !InLine(Line(Run(w, acts), name), id)
  {
    ReachableLines(w);
    RunKeepsLines(w, acts);
    assert NotBehind(Line(w, name), Line(Run(w, acts), name), id);
  }

  // ----- who takes a slot out of its line -----

  /** The guards of the only two steps that take slot `id` out of the line of `name`: a
      sweep that read the slot's horizon or later, and the dequeue of a call that won
      on this very slot. */
  predicate TakesOut(w: World, a: Action, name: string, id: Token)
    requires Enabled(w, a)
  {
    && InLine(Line(w, name), id)
    && ((a.SweepLines? && w.procs[a.p].now >= SlotIn(Line(w, name), id).horizon)
        || (a.Dequeue? && w.procs[a.p].call.name == name && w.procs[a.p].id == id))
  }

  lemma JoinTakesNobodyOut(w: World, p: nat, newId: Token, name: string, id: Token)
    requires LinesKept(w) && Enabled(w, JoinLine(p, newId)) && InLine(Line(w, name), id)
    ensures var w' := Next(w, JoinLine(p, newId));
            && InLine(Line(w', name), id)
            && (w'.procs[p].id != id ==> SlotIn(Line(w', name), id) == SlotIn(Line(w, name), id))
  {
    var call := w.procs[p].call;
    var q := Line(w, call.name);
    var horizon := Horizon(w.clock, call.ttl, ClampWait(call.wait));
    LineAfterPut(w.queues, call.name, Join(q, call.agent, call.wake, newId, horizon), name);
    JoinKeepsPlaces(q, call.agent, call.wake, newId, horizon, id);
  }

  lemma DequeueTakesItsOwn(w: World, p: nat, name: string, id: Token)
    requires LinesKept(w) && Enabled(w, Dequeue(p)) && InLine(Line(w, name), id)
    ensures var w' := Next(w, Dequeue(p));
            && (InLine(Line(w', name), id) <==> !TakesOut(w, Dequeue(p), name, id))
            && (InLine(Line(w', name), id) ==> SlotIn(Line(w', name), id) == SlotIn(Line(w, name), id))
  {
    var x := w.procs[p];
    LineAfterPut(w.queues, x.call.name, Leave(Line(w, x.call.name), x.id), name);
    KeepShortens(Line(w, name), Other(x.id), w.arrivals, id);
  }

  lemma SweepTakesTheDue(w: World, p: nat, name: string, id: Token)
    requires LinesKept(w) && Enabled(w, SweepLines(p)) && InLine(Line(w, name), id)
    ensures var w' := Next(w, SweepLines(p));
            && (InLine(Line(w', name), id) <==> !TakesOut(w, SweepLines(p), name, id))
            && (InLine(Line(w', name), id) ==> SlotIn(Line(w', name), id) == SlotIn(Line(w, name), id))
  {
    LineAfterSweep(w.queues, w.procs[p].now, name);
    KeepShortens(Line(w, name), Lasting(w.procs[p].now), w.arrivals, id);
  }

  /** A slot leaves its line exactly when a step takes it out, and only re-attaching
      to it changes it. */
  lemma StaysUnlessTakenOut(w: World, a: Action, name: string, id: Token)
    requires LinesKept(w) && Enabled(w, a) && InLine(Line(w, name), id)
    ensures InLine(Line(Next(w, a), name), id) <==> !TakesOut(w, a, name, id)
    ensures InLine(Line(Next(w, a), name), id) && (a.JoinLine? ==> Next(w, a).procs[a.p].id != id)
            ==> SlotIn(Line(Next(w, a), name), id) == SlotIn(Line(w, name), id)
  {
    if a.JoinLine? {
      JoinTakesNobodyOut(w, a.p, a.newId, name, id);
    } else if a.Dequeue? {
      DequeueTakesItsOwn(w, a.p, name, id);
    } else if a.SweepLines? {
      SweepTakesTheDue(w, a.p, name, id);
    } else {
      QuietKeepsOrder(w, a);
    }
  }

  // ----- two rules for callers -----

  /** The second from which on the collector may take the slot this call has joined. */
  function Due(x: Proc): (r: int)
    requires Attached(x)
    ensures r >= x.since + ClampWait(x.call.wait) + WAITER_GC_SLACK
  {
    Horizon(x.since, x.call.ttl, ClampWait(x.call.wait))
  }

  /** What a caller can do for its own good: show a wake token in one call at a time,
      and be done with a call before its slot is due. */
  datatype Rule = OneCallPerToken | DoneInTime

  ghost predicate SingleUse(w: World) {
    forall p, q | p in w.procs && q in w.procs && p != q && Attached(w.procs[p]) && Attached(w.procs[q]) ::
      w.procs[p].id != w.procs[q].id
  }

  ghost predicate Timely(w: World) {
    forall p | p in w.procs && Attached(w.procs[p]) :: w.clock < Due(w.procs[p])
  }

  const BOTH_RULES: set<Rule> := {OneCallPerToken, DoneInTime}

  ghost predicate Follows(w: World, rules: set<Rule>) {
    (OneCallPerToken in rules ==> SingleUse(w)) && (DoneInTime in rules ==> Timely(w))
  }

  /** Every world of the run keeps the rules. */
  ghost predicate Ruled(w: World, acts: seq<Action>, rules: set<Rule>)
    requires Feasible(w, acts)
    decreases |acts|
  {
    Follows(w, rules) && (acts != [] ==> Ruled(Next(w, acts[0]), acts[1..], rules))
  }

  /** Reachable by a run that keeps the rules in each of its worlds. */
  ghost predicate ReachableUnder(w: World, rules: set<Rule>) {
    exists clock: int, acts: seq<Action> ::
      Feasible(Start(clock), acts) && Ruled(Start(clock), acts, rules) && w == Run(Start(clock), acts)
  }

  /** A slot in line is due when its call says so. */
  ghost predicate AsPromised(w: World) {
    forall p | p in w.procs && Attached(w.procs[p]) && HasSlot(w, w.procs[p]) ::
      SlotIn(Line(w, w.procs[p].call.name), w.procs[p].id).horizon == Due(w.procs[p])
  }

  /** The call is still in line. */
  ghost predicate HasSlot(w: World, x: Proc)
    requires Attached(x)
  {
    InLine(Line(w, x.call.name), x.id)
  }

  ghost predicate AllHaveSlots(w: World) {
    forall p | p in w.procs && Attached(w.procs[p]) :: HasSlot(w, w.procs[p])
  }

  lemma JoinerHasSlot(w: World, p: nat, newId: Token)
    requires LinesKept(w) && Enabled(w, JoinLine(p, newId))
    ensures var w' := Next(w, JoinLine(p, newId));
            && HasSlot(w', w'.procs[p])
            && SlotIn(Line(w', w'.procs[p].call.name), w'.procs[p].id).horizon == Due(w'.procs[p])
  {
    var call := w.procs[p].call;
    var q := Line(w, call.name);
    var horizon := Horizon(w.clock, call.ttl, ClampWait(call.wait));
    var q' := Join(q, call.agent, call.wake, newId, horizon);
    var id := JoinedAs(q, call.wake, newId);
    LineAfterPut(w.queues, call.name, q', call.name);
    JoinKeepsPlaces(q, call.agent, call.wake, newId, horizon, id);
    NotInLog(q, w.arrivals, newId);
    if Reattaches(q, call.wake) {
      assert IndexOf(q', id) == IndexOf(q, id);
    } else {
      assert q'[|q|].id == newId;
      IndexOfFinds(q', |q|);
      assert forall i :: 0 <= i < |q| ==> q'[i] == q[i] && q[i] in q;
      assert IndexOf(q', id) == |q|;
    }
  }

  /** A step of a call other than joining changes neither its slot nor its wait. */
  lemma SameSlotAfterStep(w: World, a: Action)
    requires Enabled(w, a) && !a.Tick? && !a.JoinLine?
    requires a.p in Next(w, a).procs && Attached(Next(w, a).procs[a.p])
    ensures a.p in w.procs && Attached(w.procs[a.p]) && !a.Dequeue? && !a.SweepLines?
    ensures var x, x' := w.procs[a.p], Next(w, a).procs[a.p]; x'.id == x.id && x'.call == x.call && x'.since == x.since
  {
  }

  /** The call of `p` after a step had the same slot and the same wait before it. */
  lemma CallBefore(w: World, a: Action, p: nat)
    requires Enabled(w, a) && p in Next(w, a).procs && Attached(Next(w, a).procs[p])
    requires !(a.JoinLine? && a.p == p)
    ensures p in w.procs && Attached(w.procs[p])
    ensures var x, x' := w.procs[p], Next(w, a).procs[p]; x'.id == x.id && x'.call == x.call && x'.since == x.since
    ensures !(a.Dequeue? && a.p == p)
  {
    if a.Tick? || a.p != p { OthersUntouched(w, a, p); } else { SameSlotAfterStep(w, a); }
  }

  /** While no two calls share a slot, its horizon is the one its call asked for. */
  lemma StepKeepsPromises(w: World, a: Action)
    requires LinesKept(w) && AsPromised(w) && Enabled(w, a) && SingleUse(Next(w, a))
    ensures AsPromised(Next(w, a))
  {
    var w' := Next(w, a);
    StepKeepsOrder(w, a);
    forall p | p in w'.procs && Attached(w'.procs[p]) && HasSlot(w', w'.procs[p])
      ensures SlotIn(Line(w', w'.procs[p].call.name), w'.procs[p].id).horizon == Due(w'.procs[p])
    {
      if a.JoinLine? && a.p == p {
        JoinerHasSlot(w, p, a.newId);
      } else {
        CallBefore(w, a, p);
        var x := w.procs[p];
        assert CallKept(w, x) && NotBehind(Line(w, x.call.name), Line(w', x.call.name), x.id);
        StaysUnlessTakenOut(w, a, x.call.name, x.id);
      }
    }
  }

  /** The collector never takes the slot of a call that keeps both rules. */
  lemma StepKeepsSlots(w: World, a: Action)
    requires LinesKept(w) && AsPromised(w) && AllHaveSlots(w) && Enabled(w, a) && CallsSound(w)
    requires SingleUse(w) && Timely(w)
    ensures AllHaveSlots(Next(w, a))
  {
    var w' := Next(w, a);
    forall p | p in w'.procs && Attached(w'.procs[p]) ensures HasSlot(w', w'.procs[p]) {
      if a.JoinLine? && a.p == p {
        JoinerHasSlot(w, p, a.newId);
      } else {
        CallBefore(w, a, p);
        var x := w.procs[p];
        assert HasSlot(w, x) && w.clock < Due(x) == SlotIn(Line(w, x.call.name), x.id).horizon;
        if a.SweepLines? { assert CallSound(w.procs[a.p], w.clock); }
        StaysUnlessTakenOut(w, a, x.call.name, x.id);
      }
    }
  }

  lemma {:induction false} RunKeepsPromises(w: World, acts: seq<Action>)
    requires LinesKept(w) && AsPromised(w) && Feasible(w, acts) && Ruled(w, acts, {OneCallPerToken})
    ensures LinesKept(Run(w, acts)) && AsPromised(Run(w, acts))
    decreases |acts|
  {
    if acts != [] {
      StepKeepsPromises(w, acts[0]);
      StepKeepsLines(w, acts[0]);
      RunKeepsPromises(Next(w, acts[0]), acts[1..]);
    }
  }

  lemma ReachableAsPromised(w: World)
    requires ReachableUnder(w, {OneCallPerToken})
    ensures LinesKept(w) && AsPromised(w)
  {
    var clock: int, acts: seq<Action> :|
      Feasible(Start(clock), acts) && Ruled(Start(clock), acts, {OneCallPerToken}) && w == Run(Start(clock), acts);
    RunKeepsPromises(Start(clock), acts);
  }

  lemma {:induction false} RunKeepsSlots(w: World, acts: seq<Action>)
    requires LinesKept(w) && Safe(w) && AsPromised(w) && AllHaveSlots(w) && Feasible(w, acts)
    requires Ruled(w, acts, BOTH_RULES)
    ensures AllHaveSlots(Run(w, acts)) && LinesKept(Run(w, acts))
    decreases |acts|
  {
    if acts != [] {
      StepKeepsSlots(w, acts[0]);
      StepKeepsPromises(w, acts[0]);
      StepKeepsLines(w, acts[0]);
      StepKeepsSafe(w, acts[0]);
      RunKeepsSlots(Next(w, acts[0]), acts[1..]);
    }
  }

  // ----- first come, first served among those in line -----

  /** First come, first served across the gap between the head check and the grant.
      If callers keep both rules, every call that has seen itself at the head is at the
      head now: when its attempt commits and until it leaves the line, everyone else in
      line arrived after it, and its leaving takes exactly the head away. */
  lemma QueuedGrantsGoToTheHead(clock: int, acts: seq<Action>, p: nat)
    requires Feasible(Start(clock), acts)
    requires Ruled(Start(clock), acts, BOTH_RULES)
    requires var w := Run(Start(clock), acts); p in w.procs && SawHead(w.procs[p])
    ensures var w := Run(Start(clock), acts);
            var x := w.procs[p];
            var q := Line(w, x.call.name);
            && IsHead(q, x.id) && x.id in w.arrivals
            && (forall i :: 0 < i < |q| ==> q[i].id in w.arrivals && Rank(w.arrivals, x.id) < Rank(w.arrivals, q[i].id))
            && Leave(q, x.id) == q[1..]
  {
    RunKeepsSlots(Start(clock), acts);
    var w := Run(Start(clock), acts);
    var x := w.procs[p];
    assert CallKept(w, x) && HasSlot(w, x);
    LeaveHead(Line(w, x.call.name), w.arrivals);
  }

  /** The winner's leaving shortens its line by exactly the head, and no other line. */
  lemma WinnerLeavesFromTheHead(clock: int, acts: seq<Action>, p: nat)
    requires Feasible(Start(clock), acts)
    requires Ruled(Start(clock), acts, BOTH_RULES)
    requires Enabled(Run(Start(clock), acts), Dequeue(p))
    ensures var w := Run(Start(clock), acts);
            var w', name := Next(w, Dequeue(p)), w.procs[p].call.name;
            && Line(w, name) != [] && Line(w', name) == Line(w, name)[1..]
            && forall n | n != name :: Line(w', n) == Line(w, n)
  {
    QueuedGrantsGoToTheHead(clock, acts, p);
    var w := Run(Start(clock), acts);
    var x := w.procs[p];
    forall n
      ensures Line(Next(w, Dequeue(p)), n) == if n == x.call.name then Leave(Line(w, n), x.id) else Line(w, n)
    {
      LineAfterPut(w.queues, x.call.name, Leave(Line(w, x.call.name), x.id), n);
    }
  }

  lemma {:induction false} KeepAll(q: seq<Slot>, keep: Slot -> bool)
    requires forall s | s in q :: keep(s)
    ensures Keep(q, keep) == q
  {
    if q != [] { KeepAll(q[1..], keep); }
  }

  lemma LeaveHead(q: seq<Slot>, log: seq<Token>)
    requires q != [] && InArrivalOrder(q, log)
    ensures Leave(q, q[0].id) == q[1..]
  {
    forall s | s in q[1..] ensures s.id != q[0].id {
      var i :| 0 < i < |q| && q[i] == s;
      assert Rank(log, q[0].id) < Rank(log, q[i].id);
    }
    KeepAll(q[1..], Other(q[0].id));
  }
}
