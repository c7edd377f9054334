/** No lock wakeup is lost: whoever parked at the head after a failed attempt is not
    left asleep on a deleted lock, and whoever owes signals delivers them all. */
module LockWakeups {
  import opened Base
  import opened LockTable
  import opened WaitQueues
  import opened LockProtocol
  import opened LockLines

  /** A slot is in one line only, and a call uses a slot of its own lock. */
  ghost predicate AtHome(w: World) {
    && (forall m, n, id :: InLine(Line(w, m), id) && InLine(Line(w, n), id) ==> m == n)
    && (forall p, m | p in w.procs && Attached(w.procs[p]) ::
          InLine(Line(w, m), w.procs[p].id) ==> m == w.procs[p].call.name)
  }

  lemma JoinedLines(w: World, p: nat, newId: Token, m: string, id: Token)
    requires LinesKept(w) && Enabled(w, JoinLine(p, newId))
    ensures var w' := Next(w, JoinLine(p, newId));
            InLine(Line(w', m), id) ==> InLine(Line(w, m), id) || (id == w'.procs[p].id && m == w.procs[p].call.name)
    ensures var id' := Next(w, JoinLine(p, newId)).procs[p].id;
            id' != newId ==> InLine(Line(w, w.procs[p].call.name), id')
    ensures !InLine(Line(w, m), newId)
  {
    var call := w.procs[p].call;
    var q := Line(w, call.name);
    var horizon := Horizon(w.clock, call.ttl, ClampWait(call.wait));
    LineAfterPut(w.queues, call.name, Join(q, call.agent, call.wake, newId, horizon), m);
    JoinKeepsPlaces(q, call.agent, call.wake, newId, horizon, id);
    NotInLog(Line(w, m), w.arrivals, newId);
  }

  lemma StepKeepsHome(w: World, a: Action)
    requires LinesKept(w) && AtHome(w) && Enabled(w, a)
    ensures AtHome(Next(w, a))
  {
    var w' := Next(w, a);
    if a.JoinLine? {
      var id' := w'.procs[a.p].id;
      forall m, n, id | InLine(Line(w', m), id) && InLine(Line(w', n), id) ensures m == n {
        JoinedLines(w, a.p, a.newId, m, id);
        JoinedLines(w, a.p, a.newId, n, id);
      }
      forall p, m | p in w'.procs && Attached(w'.procs[p]) && InLine(Line(w', m), w'.procs[p].id)
        ensures m == w'.procs[p].call.name
      {
        JoinedLines(w, a.p, a.newId, m, w'.procs[p].id);
        if p != a.p { assert w'.procs[p] == w.procs[p] && CallKept(w, w.procs[p]); }
      }
    } else {
      StepKeepsOrder(w, a);
      forall m, id | InLine(Line(w', m), id) ensures InLine(Line(w, m), id) {
        ShrinkOnly(w, a, m, id);
      }
      forall p, m | p in w'.procs && Attached(w'.procs[p]) && InLine(Line(w', m), w'.procs[p].id)
        ensures m == w'.procs[p].call.name
      {
        if a.Tick? || a.p != p { OthersUntouched(w, a, p); } else { SameSlotAfterStep(w, a); }
      }
    }
  }

  /** Only joining puts anyone in a line. */
  lemma ShrinkOnly(w: World, a: Action, m: string, id: Token)
    requires LinesKept(w) && Enabled(w, a) && !a.JoinLine?
    ensures InLine(Line(Next(w, a), m), id) ==> InLine(Line(w, m), id)
  {
    if a.Dequeue? {
      var x := w.procs[a.p];
      LineAfterPut(w.queues, x.call.name, Leave(Line(w, x.call.name), x.id), m);
      KeepShortens(Line(w, x.call.name), Other(x.id), w.arrivals, id);
    } else if a.SweepLines? {
      LineAfterSweep(w.queues, w.procs[a.p].now, m);
      KeepShortens(Line(w, m), Lasting(w.procs[a.p].now), w.arrivals, id);
    } else {
      QuietKeepsOrder(w, a);
    }
  }

  /** `x` will signal slot `id` of `name`, or retry the lock in its stead, before it ends. */
  ghost predicate Carries(x: Proc, name: string, id: Token) {
    match x
    case Waking(todo) => name in todo
    case Sending(id', todo) => id' == id || name in todo
    case Sweeping(_) => true
    case Probing(_, heads) => name in heads && heads[name] == id
    case Poking(_, id', heads) => id' == id || (name in heads && heads[name] == id)
    case Looping(call, id', _) => id' == id && call.name == name
    case Heading(call, id', _) => id' == id && call.name == name
    case Retrying(call, id', _, _) => id' == id && call.name == name
    case _ => false
  }

  ghost predicate OnItsWay(w: World, name: string, id: Token) {
    exists p :: p in w.procs && Carries(w.procs[p], name, id)
  }

  /** A wakeup for slot `id` of `name` is not needed, has been delivered, or is coming. */
  ghost predicate Attended(w: World, name: string, id: Token) {
    IsHead(Line(w, name), id) ==> id in w.pending || name in w.table || OnItsWay(w, name, id)
  }

  ghost predicate NoWakeupLost(w: World) {
    forall p | p in w.procs && w.procs[p].Parked? && w.procs[p].tried ::
      Attended(w, w.procs[p].call.name, w.procs[p].id)
  }

  /** If the acting call carried the wakeup, it still does, or has delivered it. */
  lemma CarrierDelivers(w: World, a: Action, name: string, id: Token)
    requires Enabled(w, a) && !a.Tick? && a.p in w.procs && Carries(w.procs[a.p], name, id)
    requires IsHead(Line(w, name), id) && IsHead(Line(Next(w, a), name), id)
    ensures var w' := Next(w, a);
            id in w'.pending || name in w'.table || (a.p in w'.procs && Carries(w'.procs[a.p], name, id))
  {
    match w.procs[a.p] {
      case Retrying(_, _, _, _) => assert name in Next(w, a).table;
      case Sweeping(now) => assert Next(w, a).procs[a.p] == Probing(now, Heads(Next(w, a).queues));
      case _ =>
    }
  }

  /** A row that disappears, or a signal that is consumed, leaves a carrier behind. */
  lemma NewCarrier(w: World, a: Action, name: string, id: Token)
    requires LinesKept(w) && AtHome(w) && Enabled(w, a)
    requires IsHead(Line(w, name), id)
    requires (name in w.table && name !in Next(w, a).table) || (id in w.pending && id !in Next(w, a).pending)
    ensures !a.Tick? && a.p in Next(w, a).procs && Carries(Next(w, a).procs[a.p], name, id)
  {
    HeadIndex(Line(w, name), id);
  }

  lemma StaysAttended(w: World, a: Action, name: string, id: Token)
    requires LinesKept(w) && AtHome(w) && Enabled(w, a)
    requires Attended(w, name, id) && IsHead(Line(w, name), id)
    ensures Attended(Next(w, a), name, id)
  {
    var w' := Next(w, a);
    if IsHead(Line(w', name), id) {
      if (name in w.table && name !in w'.table) || (id in w.pending && id !in w'.pending) {
        NewCarrier(w, a, name, id);
      } else if id !in w.pending && name !in w.table {
        var c :| c in w.procs && Carries(w.procs[c], name, id);
        if a.Tick? || a.p != c {
          OthersUntouched(w, a, c);
          assert c in w'.procs && Carries(w'.procs[c], name, id);
        } else {
          CarrierDelivers(w, a, name, id);
        }
      }
    }
  }

  lemma BystanderAttended(w: World, a: Action, x: Proc)
    requires LinesKept(w) && AtHome(w) && Enabled(w, a) && CallKept(w, x)
    requires x.Parked? && x.tried && Attended(w, x.call.name, x.id)
    ensures Attended(Next(w, a), x.call.name, x.id)
  {
    StepKeepsOrder(w, a);
    assert NotBehind(Line(w, x.call.name), Line(Next(w, a), x.call.name), x.id);
    HeadIndex(Line(w, x.call.name), x.id);
    HeadIndex(Line(Next(w, a), x.call.name), x.id);
    if IsHead(Line(Next(w, a), x.call.name), x.id) { StaysAttended(w, a, x.call.name, x.id); }
  }

  /** A call parks after a try only because its attempt met a row. */
  lemma ParkedOnARow(w: World, a: Action)
    requires Enabled(w, a) && !a.Tick? && a.p in Next(w, a).procs
    requires Next(w, a).procs[a.p].Parked? && Next(w, a).procs[a.p].tried
    ensures Next(w, a).procs[a.p].call.name in Next(w, a).table
  {
    assert a.RetryTx?;
  }

  lemma StepKeepsWakeups(w: World, a: Action)
    requires LinesKept(w) && AtHome(w) && NoWakeupLost(w) && Enabled(w, a)
    ensures NoWakeupLost(Next(w, a))
  {
    var w' := Next(w, a);
    forall p | p in w'.procs && w'.procs[p].Parked? && w'.procs[p].tried
      ensures Attended(w', w'.procs[p].call.name, w'.procs[p].id)
    {
      if a.Tick? || a.p != p {
        OthersUntouched(w, a, p);
        BystanderAttended(w, a, w.procs[p]);
      } else {
        ParkedOnARow(w, a);
      }
    }
  }

  lemma {:induction false} RunKeepsWakeups(w: World, acts: seq<Action>)
    requires LinesKept(w) && AtHome(w) && NoWakeupLost(w) && Feasible(w, acts)
    ensures NoWakeupLost(Run(w, acts))
    decreases |acts|
  {
    if acts != [] {
      StepKeepsWakeups(w, acts[0]);
      StepKeepsHome(w, acts[0]);
      StepKeepsLines(w, acts[0]);
      RunKeepsWakeups(Next(w, acts[0]), acts[1..]);
    }
  }

  /** In every reachable world, a waiter parked after a failed attempt and standing at
      the head has a signal, or the lock has a row, or someone between a deletion and
      its wakeup is about to signal it (or a call on the same slot is about to retry).
      It needs no assumption on how clients use their wake tokens. */
  lemma NoLostLockWakeup(w: World, p: nat)
    requires Reachable(w) && p in w.procs && w.procs[p].Parked? && w.procs[p].tried
    requires IsHead(Line(w, w.procs[p].call.name), w.procs[p].id)
    ensures w.procs[p].id in w.pending || w.procs[p].call.name in w.table
            || OnItsWay(w, w.procs[p].call.name, w.procs[p].id)
  {
    var clock: int, acts: seq<Action> :| Feasible(Start(clock), acts) && w == Run(Start(clock), acts);
    RunKeepsWakeups(Start(clock), acts);
    assert Attended(w, w.procs[p].call.name, w.procs[p].id);
  }

  // ----- one signal, one wakeup -----

  /** Somebody signals slot `id` during the run. */
  ghost predicate SignalledDuring(w: World, acts: seq<Action>, id: Token)
    requires Feasible(w, acts)
    decreases |acts|
  {
    && acts != []
    && (|| ((acts[0].Send? || acts[0].Poke?) && w.procs[acts[0].p].id == id)
        || SignalledDuring(Next(w, acts[0]), acts[1..], id))
  }

  lemma NoSignalFromNowhere(w: World, a: Action, id: Token)
    requires Enabled(w, a) && id !in w.pending && !((a.Send? || a.Poke?) && w.procs[a.p].id == id)
    ensures id !in Next(w, a).pending
  {
  }

  lemma {:induction false} StaysUnsignalled(w: World, acts: seq<Action>, id: Token)
    requires Feasible(w, acts) && id !in w.pending && !SignalledDuring(w, acts, id)
    ensures id !in Run(w, acts).pending
    decreases |acts|
  {
    if acts != [] {
      NoSignalFromNowhere(w, acts[0], id);
      StaysUnsignalled(Next(w, acts[0]), acts[1..], id);
    }
  }

  /** A call that wakes uses its signal up: however many were sent, nobody on the slot
      wakes again before another is sent. */
  lemma OneWakeupPerSignal(w: World, p: nat, acts: seq<Action>, q: nat)
    requires Enabled(w, Receive(p)) && Feasible(Next(w, Receive(p)), acts)
    requires !SignalledDuring(Next(w, Receive(p)), acts, w.procs[p].id)
    requires var end := Run(Next(w, Receive(p)), acts);
             q in end.procs && Attached(end.procs[q]) && end.procs[q].id == w.procs[p].id
    ensures !Enabled(Run(Next(w, Receive(p)), acts), Receive(q))
  {
    StaysUnsignalled(Next(w, Receive(p)), acts, w.procs[p].id);
  }

  // ----- a releaser and a reaper pass deliver every signal they owe -----

  /** During the run `p` sends a signal to slot `id`, which then has one. */
  ghost predicate SignalSent(w: World, acts: seq<Action>, p: nat, id: Token)
    requires Feasible(w, acts)
    decreases |acts|
  {
    && acts != []
    && (|| ((acts[0] == Send(p) || acts[0] == Poke(p)) && w.procs[p].id == id && id in Next(w, acts[0]).pending)
        || SignalSent(Next(w, acts[0]), acts[1..], p, id))
  }

  /** During the run the reaper `p` probes `name` and finds a live row. */
  ghost predicate ProbedLive(w: World, acts: seq<Action>, p: nat, name: string)
    requires Feasible(w, acts)
    decreases |acts|
  {
    && acts != []
    && (|| (acts[0] == Probe(p, name) && LiveAt(w.table, name, w.procs[p].now))
        || ProbedLive(Next(w, acts[0]), acts[1..], p, name))
  }

  /** The reaper has yet to probe `name` with head `id`, or is about to signal `id`. */
  predicate OwesProbe(x: Proc, name: string, id: Token) {
    || ((x.Probing? || x.Poking?) && name in x.heads && x.heads[name] == id)
    || (x.Poking? && x.id == id)
  }

  lemma ReaperStep(w: World, a: Action, p: nat, name: string, id: Token)
    requires Enabled(w, a) && p in w.procs && OwesProbe(w.procs[p], name, id)
    ensures p in Next(w, a).procs
    ensures || OwesProbe(Next(w, a).procs[p], name, id)
            || (a == Probe(p, name) && LiveAt(w.table, name, w.procs[p].now))
            || (a == Poke(p) && w.procs[p].id == id && id in Next(w, a).pending)
  {
    if a.Tick? || a.p != p { OthersUntouched(w, a, p); }
  }

  lemma {:induction false} ReaperDelivers(w: World, acts: seq<Action>, p: nat, name: string, id: Token)
    requires Feasible(w, acts) && p in w.procs && OwesProbe(w.procs[p], name, id)
    requires p in Run(w, acts).procs && !OwesProbe(Run(w, acts).procs[p], name, id)
    ensures ProbedLive(w, acts, p, name) || SignalSent(w, acts, p, id)
    decreases |acts|
  {
    ReaperStep(w, acts[0], p, name, id);
    if OwesProbe(Next(w, acts[0]).procs[p], name, id) { ReaperDelivers(Next(w, acts[0]), acts[1..], p, name, id); }
  }

  /** From its sweep to its end, whatever others do in between, a reaper pass signals
      the head of every line left by the sweep unless it finds the lock live. So a head
      that sleeps on a free lock sleeps until the next pass at most. */
  lemma ReaperPassReachesEveryHead(w: World, p: nat, acts: seq<Action>, name: string)
    requires Reachable(w) && Enabled(w, SweepLines(p)) && Feasible(Next(w, SweepLines(p)), acts)
    requires Line(Next(w, SweepLines(p)), name) != []
    requires p in Run(Next(w, SweepLines(p)), acts).procs
    requires Run(Next(w, SweepLines(p)), acts).procs[p] == Probing(w.procs[p].now, map[])
    ensures var w' := Next(w, SweepLines(p));
            ProbedLive(w', acts, p, name) || SignalSent(w', acts, p, Line(w', name)[0].id)
  {
    ReaperDelivers(Next(w, SweepLines(p)), acts, p, name, Line(Next(w, SweepLines(p)), name)[0].id);
  }

  /** During the run the releaser `p` looks at the line of `name`, finds it empty or
      sends its head a signal. */
  ghost predicate HeadServed(w: World, acts: seq<Action>, p: nat, name: string)
    requires Feasible(w, acts)
    decreases |acts|
  {
    && acts != []
    && (|| (&& acts[0] == ReadHead(p, name)
            && (Line(w, name) == [] || SignalSent(Next(w, acts[0]), acts[1..], p, Line(w, name)[0].id)))
        || HeadServed(Next(w, acts[0]), acts[1..], p, name))
  }

  lemma {:induction false} SenderDelivers(w: World, acts: seq<Action>, p: nat)
    requires Feasible(w, acts) && p in w.procs && w.procs[p].Sending?
    requires p in Run(w, acts).procs && Run(w, acts).procs[p] == Waking({})
    ensures SignalSent(w, acts, p, w.procs[p].id)
    decreases |acts|
  {
    var a := acts[0];
    if a.Tick? || a.p != p {
      OthersUntouched(w, a, p);
      SenderDelivers(Next(w, a), acts[1..], p);
    }
  }

  lemma ReleaserStep(w: World, a: Action, p: nat, name: string)
    requires Enabled(w, a) && p in w.procs && (w.procs[p].Waking? || w.procs[p].Sending?) && name in w.procs[p].todo
    ensures p in Next(w, a).procs
    ensures var x' := Next(w, a).procs[p];
            if a == ReadHead(p, name) then
              Line(w, name) != [] ==> x'.Sending? && x'.id == Line(w, name)[0].id
            else
              (x'.Waking? || x'.Sending?) && name in x'.todo
  {
    if a.Tick? || a.p != p { OthersUntouched(w, a, p); }
  }

  /** A releaser that runs to its end has served the head of every line it owed: all
      the names of its release, whatever others do in between. */
  lemma {:induction false} ReleaserServesEveryHead(w: World, acts: seq<Action>, p: nat, name: string)
    requires Feasible(w, acts) && p in w.procs && (w.procs[p].Waking? || w.procs[p].Sending?) && name in w.procs[p].todo
    requires p in Run(w, acts).procs && Run(w, acts).procs[p] == Waking({})
    ensures HeadServed(w, acts, p, name)
    decreases |acts|
  {
    ReleaserStep(w, acts[0], p, name);
    if acts[0] == ReadHead(p, name) {
      if Line(w, name) != [] { SenderDelivers(Next(w, acts[0]), acts[1..], p); }
    } else {
      ReleaserServesEveryHead(Next(w, acts[0]), acts[1..], p, name);
    }
  }
}
