/** How far first come, first served goes: exactly when a queued grant goes to the head
    of the line, and how long a slot that nobody serves can hold the line up. */
module LockLimits {
  import opened Base
  import opened LockTable
  import opened WaitQueues
  import opened LockProtocol
  import opened LockLines

  // ----- exactly when the head is still the head -----

  /** No step of the run takes slot `id` out of the line of `name`. */
  ghost predicate Undisturbed(w: World, acts: seq<Action>, name: string, id: Token)
    requires Feasible(w, acts)
    decreases |acts|
  {
    acts != [] ==> !TakesOut(w, acts[0], name, id) && Undisturbed(Next(w, acts[0]), acts[1..], name, id)
  }

  lemma {:induction false} HeadWhileUndisturbed(w: World, acts: seq<Action>, name: string, id: Token)
    requires LinesKept(w) && Feasible(w, acts) && IsHead(Line(w, name), id)
    ensures IsHead(Line(Run(w, acts), name), id) <==> Undisturbed(w, acts, name, id)
    decreases |acts|
  {
    if acts != [] {
      var w' := Next(w, acts[0]);
      HeadIndex(Line(w, name), id);
      assert Line(w, name)[0].id in w.arrivals;
      StepKeepsLines(w, acts[0]);
      StaysUnlessTakenOut(w, acts[0], name, id);
      assert NotBehind(Line(w, name), Line(w', name), id);
      HeadIndex(Line(w', name), id);
      if TakesOut(w, acts[0], name, id) {
        RunKeepsLines(w', acts[1..]);
        assert NotBehind(Line(w', name), Line(Run(w', acts[1..]), name), id);
        HeadIndex(Line(Run(w', acts[1..]), name), id);
      } else {
        HeadWhileUndisturbed(w', acts[1..], name, id);
      }
    }
  }

  /** With no rule for callers at all: whoever is at the head, such as a call that has
      just passed its head check, is there after any run, such as one up to the commit
      of its attempt, if and only if no step of the run met one of the two guards that
      take its slot out. */
  lemma HeadUntilTakenOut(w: World, acts: seq<Action>, name: string, id: Token)
    requires Reachable(w) && Feasible(w, acts) && IsHead(Line(w, name), id)
    ensures IsHead(Line(Run(w, acts), name), id) <==> Undisturbed(w, acts, name, id)
  {
    ReachableLines(w);
    HeadWhileUndisturbed(w, acts, name, id);
  }

  /** Some sweep of the run read `second` or later from the clock. */
  ghost predicate SweptAt(w: World, acts: seq<Action>, second: int)
    requires Feasible(w, acts)
    decreases |acts|
  {
    && acts != []
    && ((acts[0].SweepLines? && w.procs[acts[0].p].now >= second) || SweptAt(Next(w, acts[0]), acts[1..], second))
  }

  /** The call of `p` neither wins nor gives up during the run. */
  predicate StaysOn(acts: seq<Action>, p: nat) {
    forall i :: 0 <= i < |acts| ==> acts[i] != Dequeue(p) && acts[i] != GiveUp(p)
  }

  lemma CallAfter(w: World, a: Action, p: nat)
    requires Enabled(w, a) && p in w.procs && Attached(w.procs[p]) && a != Dequeue(p) && a != GiveUp(p)
    ensures p in Next(w, a).procs && Attached(Next(w, a).procs[p]) && !(a.JoinLine? && a.p == p)
  {
    if a.Tick? || a.p != p { OthersUntouched(w, a, p); }
  }

  lemma {:induction false} HeadWhileNotSwept(w: World, acts: seq<Action>, p: nat)
    requires LinesKept(w) && AsPromised(w) && Feasible(w, acts) && Ruled(w, acts, {OneCallPerToken})
    requires p in w.procs && Attached(w.procs[p]) && StaysOn(acts, p)
    requires IsHead(Line(w, w.procs[p].call.name), w.procs[p].id)
    ensures var x := w.procs[p]; IsHead(Line(Run(w, acts), x.call.name), x.id) <==> !SweptAt(w, acts, Due(x))
    decreases |acts|
  {
    if acts != [] {
      var a, w', x := acts[0], Next(w, acts[0]), w.procs[p];
      assert a != Dequeue(p) && a != GiveUp(p);
      HeadIndex(Line(w, x.call.name), x.id);
      CallAfter(w, a, p);
      CallBefore(w, a, p);
      StepKeepsLines(w, a);
      StepKeepsPromises(w, a);
      StepTakesOnlyTheDue(w, a, p);
      HeadWhileUndisturbed(w, acts, x.call.name, x.id);
      if !TakesOut(w, a, x.call.name, x.id) {
        HeadWhileUndisturbed(w, [a], x.call.name, x.id);
        assert Run(w, [a]) == w';
        HeadWhileNotSwept(w', acts[1..], p);
      }
    }
  }

  /** While no two calls share a slot, a step of someone else takes the slot of a call
      out if and only if it is a sweep that read the second the call is due, or later. */
  lemma StepTakesOnlyTheDue(w: World, a: Action, p: nat)
    requires AsPromised(w) && SingleUse(w) && Enabled(w, a) && a != Dequeue(p)
    requires p in w.procs && Attached(w.procs[p]) && HasSlot(w, w.procs[p])
    ensures var x := w.procs[p];
            TakesOut(w, a, x.call.name, x.id) <==> a.SweepLines? && w.procs[a.p].now >= Due(x)
  {
    if a.Dequeue? { assert a.p != p && Attached(w.procs[a.p]); }
  }

  /** In the caller's own terms: if no two calls show one wake token, a call at the head
      is there for as long as it waits if and only if no sweep reads the second it is due
      or later, which is the larger of its wait plus 30 seconds and twice its ttl after
      it joined. */
  lemma HeadUnlessOverdue(w: World, acts: seq<Action>, p: nat)
    requires ReachableUnder(w, {OneCallPerToken}) && Feasible(w, acts) && Ruled(w, acts, {OneCallPerToken})
    requires p in w.procs && Attached(w.procs[p]) && StaysOn(acts, p)
    requires IsHead(Line(w, w.procs[p].call.name), w.procs[p].id)
    ensures var x := w.procs[p]; IsHead(Line(Run(w, acts), x.call.name), x.id) <==> !SweptAt(w, acts, Due(x))
  {
    ReachableAsPromised(w);
    HeadWhileNotSwept(w, acts, p);
  }

  // ----- slots nobody serves -----

  /** The calls of the run never re-attach to slot `id`. */
  ghost predicate NobodyRejoins(w: World, acts: seq<Action>, id: Token)
    requires Feasible(w, acts)
    decreases |acts|
  {
    acts != [] ==>
      && (acts[0].JoinLine? ==> Next(w, acts[0]).procs[acts[0].p].id != id)
      && NobodyRejoins(Next(w, acts[0]), acts[1..], id)
  }

  /** No call under way uses slot `id`. */
  ghost predicate Unattended(w: World, id: Token) {
    forall p | p in w.procs && Attached(w.procs[p]) :: w.procs[p].id != id
  }

  lemma StaysUnattended(w: World, a: Action, id: Token)
    requires Enabled(w, a) && Unattended(w, id) && (a.JoinLine? ==> Next(w, a).procs[a.p].id != id)
    ensures Unattended(Next(w, a), id)
  {
    var w' := Next(w, a);
    forall p | p in w'.procs && Attached(w'.procs[p]) ensures w'.procs[p].id != id {
      if !(a.JoinLine? && a.p == p) { CallBefore(w, a, p); }
    }
  }

  lemma {:induction false} UnattendedUntilSwept(w: World, acts: seq<Action>, name: string, id: Token)
    requires LinesKept(w) && InLine(Line(w, name), id) && Unattended(w, id)
    requires Feasible(w, acts) && NobodyRejoins(w, acts, id)
    ensures InLine(Line(Run(w, acts), name), id) <==> !SweptAt(w, acts, SlotIn(Line(w, name), id).horizon)
    decreases |acts|
  {
    if acts != [] {
      var w' := Next(w, acts[0]);
      assert Line(w, name)[IndexOf(Line(w, name), id)].id in w.arrivals;
      StepKeepsLines(w, acts[0]);
      StaysUnlessTakenOut(w, acts[0], name, id);
      StaysUnattended(w, acts[0], id);
      if TakesOut(w, acts[0], name, id) {
        RunKeepsLines(w', acts[1..]);
        assert NotBehind(Line(w', name), Line(Run(w', acts[1..]), name), id);
      } else {
        UnattendedUntilSwept(w', acts[1..], name, id);
      }
    }
  }

  /** A re-poll that wins on its immediate attempt leaves its own slot behind: if nobody
      else uses the slot, it is in the line after any run in which nobody re-attaches to
      it if and only if no sweep of the run has read the slot's horizon or later. */
  lemma RepollLeavesItsSlotBehind(w: World, p: nat, token: Token, acts: seq<Action>)
    requires Reachable(w) && Enabled(w, FirstTx(p, token)) && Unattended(w, w.procs[p].call.wake)
    requires Reattaches(Line(w, w.procs[p].call.name), w.procs[p].call.wake)
    requires !LiveAt(w.table, w.procs[p].call.name, w.procs[p].now)
    requires Feasible(Next(w, FirstTx(p, token)), acts)
    requires NobodyRejoins(Next(w, FirstTx(p, token)), acts, w.procs[p].call.wake)
    ensures var w', name, id := Next(w, FirstTx(p, token)), w.procs[p].call.name, w.procs[p].call.wake;
            && name in w'.table && w'.table[name].token == token
            && (InLine(Line(Run(w', acts), name), id) <==> !SweptAt(w', acts, SlotIn(Line(w, name), id).horizon))
  {
    ReachableLines(w);
    var a, id := FirstTx(p, token), w.procs[p].call.wake;
    StepKeepsLines(w, a);
    StaysUnattended(w, a, id);
    assert Line(Next(w, a), w.procs[p].call.name) == Line(w, w.procs[p].call.name);
    UnattendedUntilSwept(Next(w, a), acts, w.procs[p].call.name, id);
  }

  lemma {:induction false} UnservedSlotFrozen(w: World, acts: seq<Action>, name: string, id: Token)
    requires LinesKept(w) && Feasible(w, acts) && NobodyRejoins(w, acts, id) && InLine(Line(w, name), id)
    ensures InLine(Line(Run(w, acts), name), id) ==> SlotIn(Line(Run(w, acts), name), id) == SlotIn(Line(w, name), id)
    decreases |acts|
  {
    if acts != [] {
      var w' := Next(w, acts[0]);
      StepKeepsLines(w, acts[0]);
      RunKeepsLines(w', acts[1..]);
      assert Line(w, name)[IndexOf(Line(w, name), id)].id in w.arrivals;
      if InLine(Line(w', name), id) {
        StaysUnlessTakenOut(w, acts[0], name, id);
        UnservedSlotFrozen(w', acts[1..], name, id);
      } else {
        assert NotBehind(Line(w', name), Line(Run(w', acts[1..]), name), id);
      }
    }
  }

  /** Bounded head-of-line delay. A slot to which nobody re-attaches (abandoned, or left
      behind by a re-poll that won at once) is out of its line for good after the first
      sweep whose clock reading has reached the slot's horizon. */
  lemma UnservedSlotIsCollected(w: World, acts: seq<Action>, p: nat, name: string, id: Token, later: seq<Action>)
    requires Reachable(w) && InLine(Line(w, name), id)
    requires Feasible(w, acts) && NobodyRejoins(w, acts, id)
    requires Enabled(Run(w, acts), SweepLines(p)) && Run(w, acts).procs[p].now >= SlotIn(Line(w, name), id).horizon
    requires Feasible(Next(Run(w, acts), SweepLines(p)), later)
    ensures !InLine(Line(Run(Next(Run(w, acts), SweepLines(p)), later), name), id)
  {
    ReachableLines(w);
    RunKeepsLines(w, acts);
    UnservedSlotFrozen(w, acts, name, id);
    var w1 := Run(w, acts);
    var w2 := Next(w1, SweepLines(p));
    assert Line(w, name)[IndexOf(Line(w, name), id)].id in w.arrivals;
    LineAfterSweep(w1.queues, w1.procs[p].now, name);
    KeepShortens(Line(w1, name), Lasting(w1.procs[p].now), w1.arrivals, id);
    StepKeepsLines(w1, SweepLines(p));
    RunKeepsLines(w2, later);
    assert id in w.arrivals && id in w1.arrivals && id in w2.arrivals;
    assert NotBehind(Line(w2, name), Line(Run(w2, later), name), id);
  }

  /** After a sweep the head is the first slot that lasts beyond the sweep's second. */
  lemma {:induction false} SweepPromotesFirstLasting(q: seq<Slot>, now: int, i: nat)
    requires i < |q| && q[i].horizon > now && forall j :: 0 <= j < i ==> q[j].horizon <= now
    ensures Sweep(q, now) != [] && Sweep(q, now)[0] == q[i]
    decreases |q|
  {
    if i > 0 {
      SweepPromotesFirstLasting(q[1..], now, i - 1);
      assert !Lasting(now)(q[0]) && Sweep(q, now) == Sweep(q[1..], now);
    } else {
      assert Lasting(now)(q[0]);
    }
  }
}
