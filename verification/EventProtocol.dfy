/** Generation-counted events as a step machine: signallers and clearers commit first
    and broadcast later; waiters capture the channel, then read the generation, then
    block. Every transaction, critical section and channel receive is one step. */
module EventProtocol {
  import opened Base

  datatype Proc =
    // a signal or clear that has committed and not yet broadcast
    | Announcing(name: string)
    // a wait: top of the loop, channel captured, generation read and blocked.
    // `began` and `era` are the generation and the number of clears when the call started.
    | Looping(name: string, lastSeen: int, wait: int, began: nat, era: nat)
    | Captured(name: string, lastSeen: int, wait: int, began: nat, era: nat, ch: nat)
    | Blocked(name: string, lastSeen: int, wait: int, began: nat, era: nat, ch: nat, current: nat)

  predicate HasChannel(x: Proc) {
    x.Captured? || x.Blocked?
  }

  predicate Waiting(x: Proc) {
    x.Looping? || x.Captured? || x.Blocked?
  }

  /** A completed wait, with the generation and the number of clears when it began and
      when it returned. */
  datatype Return = Return(p: nat, name: string, lastSeen: int, began: nat, era: nat,
                           generation: nat, fired: bool, ended: nat, endEra: nat)

  datatype World = World(
    generations: map<string, nat>,
    chans: map<string, nat>,       // current channel of each name ever waited on
    closed: set<nat>,
    nextChan: nat,
    procs: map<nat, Proc>,
    signals: map<string, nat>,     // signals committed so far
    clears: map<string, nat>,      // clears committed so far
    replies: seq<Return>)

  function Start(): World {
    World(map[], map[], {}, 0, map[], map[], map[], [])
  }

  /** 0 when the event has no row. */
  function Generation(w: World, name: string): nat {
    if name in w.generations then w.generations[name] else 0
  }

  function Signals(w: World, name: string): nat {
    if name in w.signals then w.signals[name] else 0
  }

  function ClearsOf(w: World, name: string): nat {
    if name in w.clears then w.clears[name] else 0
  }

  datatype Action =
    | SignalTx(p: nat, name: string)
    | ClearTx(p: nat, name: string)
    | Broadcast(p: nat)
    | BeginWait(p: nat, name: string, lastSeen: int, wait: int)
    | Capture(p: nat)
    | Read(p: nat)
    | Receive(p: nat)
    | GiveUp(p: nat)

  predicate Enabled(w: World, a: Action) {
    match a
    case SignalTx(p, _) => p !in w.procs
    case ClearTx(p, _) => p !in w.procs
    case Broadcast(p) => p in w.procs && w.procs[p].Announcing?
    case BeginWait(p, _, _, _) => p !in w.procs
    case Capture(p) => p in w.procs && w.procs[p].Looping?
    case Read(p) => p in w.procs && w.procs[p].Captured?
    case Receive(p) => p in w.procs && w.procs[p].Blocked? && w.procs[p].ch in w.closed
    case GiveUp(p) => p in w.procs && w.procs[p].Blocked?
  }

  function At(w: World, p: nat, x: Proc): World {
    w.(procs := w.procs[p := x])
  }

  /** Ends the wait of `p` with `generation`; it fired if that is news to the caller. */
  function Reply(w: World, p: nat, x: Proc, generation: nat): World
    requires Waiting(x)
  {
    w.(procs := w.procs - {p},
       replies := w.replies + [Return(p, x.name, x.lastSeen, x.began, x.era, generation, generation > x.lastSeen,
                                      Generation(w, x.name), ClearsOf(w, x.name))])
  }

  function BroadcastStep(w: World, p: nat, name: string): World {
    var w1 := w.(procs := w.procs - {p});
    if name in w.chans
    then w1.(closed := w.closed + {w.chans[name]}, chans := w.chans[name := w.nextChan], nextChan := w.nextChan + 1)
    else w1
  }

  function CaptureStep(w: World, p: nat, x: Proc): World
    requires x.Looping?
  {
    var ch := if x.name in w.chans then w.chans[x.name] else w.nextChan;
    At(if x.name in w.chans then w else w.(chans := w.chans[x.name := ch], nextChan := w.nextChan + 1),
       p, Captured(x.name, x.lastSeen, x.wait, x.began, x.era, ch))
  }

  function ReadStep(w: World, p: nat, x: Proc): World
    requires x.Captured?
  {
    var current := Generation(w, x.name);
    if current > x.lastSeen || ClampWait(x.wait) == 0 then Reply(w, p, x, current)
    else At(w, p, Blocked(x.name, x.lastSeen, x.wait, x.began, x.era, x.ch, current))
  }

  function Next(w: World, a: Action): World
    requires Enabled(w, a)
  {
    match a
    case SignalTx(p, name) =>
      At(w.(generations := w.generations[name := Generation(w, name) + 1],
            signals := w.signals[name := Signals(w, name) + 1]), p, Announcing(name))
    case ClearTx(p, name) =>
      At(w.(generations := w.generations - {name}, clears := w.clears[name := ClearsOf(w, name) + 1]),
         p, Announcing(name))
    case Broadcast(p) => BroadcastStep(w, p, w.procs[p].name)
    case BeginWait(p, name, lastSeen, wait) =>
      At(w, p, Looping(name, lastSeen, wait, Generation(w, name), ClearsOf(w, name)))
    case Capture(p) => CaptureStep(w, p, w.procs[p])
    case Read(p) => ReadStep(w, p, w.procs[p])
    case Receive(p) => var x := w.procs[p]; At(w, p, Looping(x.name, x.lastSeen, x.wait, x.began, x.era))
    case GiveUp(p) => Reply(w, p, w.procs[p], w.procs[p].current)
  }

  ghost predicate Feasible(w: World, acts: seq<Action>)
    decreases |acts|
  {
    acts == [] || (Enabled(w, acts[0]) && Feasible(Next(w, acts[0]), acts[1..]))
  }

  ghost function Run(w: World, acts: seq<Action>): World
    requires Feasible(w, acts)
    decreases |acts|
  {
    if acts == [] then w else Run(Next(w, acts[0]), acts[1..])
  }

  ghost predicate Reachable(w: World) {
    exists acts: seq<Action> :: Feasible(Start(), acts) && w == Run(Start(), acts)
  }

  // ----- no wakeup is lost -----

  /** Current channels are open, numbered below `nextChan`, and no two names share one. */
  ghost predicate ChannelsSound(w: World) {
    && (forall n | n in w.chans :: w.chans[n] < w.nextChan && w.chans[n] !in w.closed)
    && (forall m, n | m in w.chans && n in w.chans && w.chans[m] == w.chans[n] :: m == n)
    && (forall c | c in w.closed :: c < w.nextChan)
  }

  ghost predicate Announced(w: World, name: string) {
    exists p :: p in w.procs && w.procs[p] == Announcing(name)
  }

  /** A captured channel still open is the current one; and a blocked call on an open
      channel has seen the latest generation, unless a broadcast is on its way. */
  ghost predicate WaitSound(w: World, x: Proc) {
    && (HasChannel(x) && x.ch !in w.closed ==> x.name in w.chans && w.chans[x.name] == x.ch)
    && (HasChannel(x) ==> x.ch < w.nextChan)
    && (x.Blocked? ==>
          && x.current <= x.lastSeen
          && (x.ch in w.closed || Generation(w, x.name) <= x.lastSeen || Announced(w, x.name)))
  }

  ghost predicate Sound(w: World) {
    ChannelsSound(w) && forall p | p in w.procs :: WaitSound(w, w.procs[p])
  }

  lemma StepKeepsChannels(w: World, a: Action)
    requires ChannelsSound(w) && Enabled(w, a)
    ensures ChannelsSound(Next(w, a)) && w.closed <= Next(w, a).closed && w.nextChan <= Next(w, a).nextChan
  {
  }

  /** A pending announcement stays pending until its broadcast, which closes the channel. */
  lemma AnnouncedOrClosed(w: World, a: Action, name: string)
    requires Enabled(w, a) && Announced(w, name)
    ensures Announced(Next(w, a), name) || (name in w.chans ==> w.chans[name] in Next(w, a).closed)
  {
    var q :| q in w.procs && w.procs[q] == Announcing(name);
    if q != a.p { assert Next(w, a).procs[q] == Announcing(name); }
  }

  /** The generation grows only with an announcement. */
  lemma GrowthIsAnnounced(w: World, a: Action, name: string)
    requires Enabled(w, a) && Generation(Next(w, a), name) > Generation(w, name)
    ensures Announced(Next(w, a), name)
  {
    assert a.SignalTx? && Next(w, a).procs[a.p] == Announcing(name);
  }

  lemma OthersStay(w: World, a: Action, p: nat)
    requires Enabled(w, a) && p != a.p && p in w.procs
    ensures p in Next(w, a).procs && Next(w, a).procs[p] == w.procs[p]
  {
  }

  /** A captured channel that is still open is still the current one. */
  lemma CaptureStaysCurrent(w: World, a: Action, name: string)
    requires Enabled(w, a) && name in w.chans && w.chans[name] !in Next(w, a).closed
    ensures name in Next(w, a).chans && Next(w, a).chans[name] == w.chans[name]
  {
  }

  lemma BystanderSound(w: World, a: Action, p: nat)
    requires Sound(w) && Enabled(w, a) && p != a.p && p in w.procs
    ensures p in Next(w, a).procs && Next(w, a).procs[p] == w.procs[p] && WaitSound(Next(w, a), w.procs[p])
  {
    var w', x := Next(w, a), w.procs[p];
    assert WaitSound(w, x);
    StepKeepsChannels(w, a);
    OthersStay(w, a, p);
    if HasChannel(x) && x.ch !in w'.closed { CaptureStaysCurrent(w, a, x.name); }
    if x.Blocked? && x.ch !in w'.closed && Generation(w', x.name) > x.lastSeen {
      if Generation(w, x.name) > x.lastSeen {
        AnnouncedOrClosed(w, a, x.name);
      } else {
        GrowthIsAnnounced(w, a, x.name);
      }
    }
  }

  lemma StepKeepsSound(w: World, a: Action)
    requires Sound(w) && Enabled(w, a)
    ensures Sound(Next(w, a))
  {
    StepKeepsChannels(w, a);
    var w' := Next(w, a);
    forall p | p in w'.procs ensures WaitSound(w', w'.procs[p]) {
      if p != a.p {
        BystanderSound(w, a, p);
      } else if p in w.procs {
        assert WaitSound(w, w.procs[p]);
      }
    }
  }

  lemma {:induction false} RunKeepsSound(w: World, acts: seq<Action>)
    requires Sound(w) && Feasible(w, acts)
    ensures Sound(Run(w, acts))
    decreases |acts|
  {
    if acts != [] {
      StepKeepsSound(w, acts[0]);
      RunKeepsSound(Next(w, acts[0]), acts[1..]);
    }
  }

  /** In every reachable world, a call blocked on a channel still open although the
      generation has passed what its caller last saw can count on a signaller that has
      committed and is about to broadcast. */
  lemma NoLostEventWakeup(w: World, p: nat)
    requires Reachable(w) && p in w.procs && w.procs[p].Blocked?
    requires w.procs[p].ch !in w.closed && Generation(w, w.procs[p].name) > w.procs[p].lastSeen
    ensures Announced(w, w.procs[p].name)
  {
    var acts: seq<Action> :| Feasible(Start(), acts) && w == Run(Start(), acts);
    RunKeepsSound(Start(), acts);
    assert WaitSound(w, w.procs[p]);
  }

  /** That broadcast, whoever makes it, wakes every call blocked on the name. */
  lemma BroadcastWakesAll(w: World, p: nat, q: nat)
    requires Reachable(w) && p in w.procs && w.procs[p].Announcing?
    requires q in w.procs && w.procs[q].Blocked? && w.procs[q].name == w.procs[p].name
    ensures Enabled(Next(w, Broadcast(p)), Receive(q))
  {
    var acts: seq<Action> :| Feasible(Start(), acts) && w == Run(Start(), acts);
    RunKeepsSound(Start(), acts);
    assert WaitSound(w, w.procs[q]);
  }

  // ----- what a client that feeds generations back can rely on -----

  /** A call works with generations between the one at its start and now, as long as the
      name has not been cleared since. */
  ghost predicate CallCounted(w: World, x: Proc, name: string) {
    Waiting(x) && x.name == name ==>
      && x.era <= ClearsOf(w, name)
      && (x.era == ClearsOf(w, name) ==>
            && x.began <= Generation(w, name)
            && (x.Blocked? ==> x.began <= x.current <= Generation(w, name)))
  }

  ghost predicate ReplyCounted(w: World, r: Return, name: string) {
    r.name == name ==>
      && r.era <= r.endEra <= ClearsOf(w, name)
      && (r.era == r.endEra ==> r.began <= r.generation <= r.ended)
      && (r.endEra == ClearsOf(w, name) ==> r.ended <= Generation(w, name))
  }

  ghost predicate Counted(w: World, name: string) {
    && (forall p | p in w.procs :: CallCounted(w, w.procs[p], name))
    && (forall i :: 0 <= i < |w.replies| ==> ReplyCounted(w, w.replies[i], name))
  }

  /** Two calls of one client on one name: the later began after the earlier returned. */
  ghost predicate After(r: Return, p: nat, name: string, began: nat, era: nat, on: string) {
    r.p == p && r.name == name == on ==> r.endEra <= era && (r.endEra == era ==> r.ended <= began)
  }

  ghost predicate AfterCall(r: Return, p: nat, x: Proc, on: string)
    requires Waiting(x)
  {
    After(r, p, x.name, x.began, x.era, on)
  }

  ghost predicate InTurn(w: World, name: string) {
    && (forall i, j :: 0 <= i < j < |w.replies| ==>
          After(w.replies[i], w.replies[j].p, w.replies[j].name, w.replies[j].began, w.replies[j].era, name))
    && (forall i, p :: 0 <= i < |w.replies| && p in w.procs && Waiting(w.procs[p]) ==>
          AfterCall(w.replies[i], p, w.procs[p], name))
  }

  ghost predicate FiredIffNews(w: World) {
    forall i :: 0 <= i < |w.replies| ==> (w.replies[i].fired <==> w.replies[i].generation > w.replies[i].lastSeen)
  }

  /** Between two clears the generation only grows. */
  lemma GenerationGrows(w: World, a: Action, name: string)
    requires Enabled(w, a)
    ensures ClearsOf(w, name) <= ClearsOf(Next(w, a), name)
    ensures ClearsOf(w, name) == ClearsOf(Next(w, a), name) ==> Generation(w, name) <= Generation(Next(w, a), name)
  {
  }

  /** The generation a call replies with: the one it blocked on, or the one it just read. */
  function Replied(w: World, x: Proc): nat
    requires Waiting(x)
  {
    if x.Blocked? then x.current else Generation(w, x.name)
  }

  /** A step either leaves the replies alone or ends the acting call. */
  lemma RepliesGrow(w: World, a: Action)
    requires Enabled(w, a) && Next(w, a).replies != w.replies
    ensures a.p in w.procs && Waiting(w.procs[a.p])
    ensures Next(w, a) == Reply(w, a.p, w.procs[a.p], Replied(w, w.procs[a.p]))
  {
    assert a.Read? || a.GiveUp?;
  }

  lemma ReplyKeepsCounts(w: World, p: nat, g: nat, name: string)
    requires Counted(w, name) && InTurn(w, name) && p in w.procs && Waiting(w.procs[p])
    requires w.procs[p].name == name && w.procs[p].era == ClearsOf(w, name)
             ==> w.procs[p].began <= g <= Generation(w, name)
    ensures Counted(Reply(w, p, w.procs[p], g), name) && InTurn(Reply(w, p, w.procs[p], g), name)
  {
    var w', n := Reply(w, p, w.procs[p], g), |w.replies|;
    assert CallCounted(w, w.procs[p], name);
    forall i | 0 <= i < |w'.replies| ensures ReplyCounted(w', w'.replies[i], name) {
      if i < n { assert ReplyCounted(w, w.replies[i], name); }
    }
    forall q | q in w'.procs ensures CallCounted(w', w'.procs[q], name) {
      assert CallCounted(w, w.procs[q], name);
    }
    ReplyKeepsTurns(w, p, g, name);
  }

  lemma ReplyKeepsTurns(w: World, p: nat, g: nat, name: string)
    requires InTurn(w, name) && p in w.procs && Waiting(w.procs[p])
    requires CallCounted(w, w.procs[p], name)
    ensures InTurn(Reply(w, p, w.procs[p], g), name)
  {
    var w', n := Reply(w, p, w.procs[p], g), |w.replies|;
    forall i, j | 0 <= i < j < |w'.replies|
      ensures After(w'.replies[i], w'.replies[j].p, w'.replies[j].name, w'.replies[j].began, w'.replies[j].era, name)
    {
      if j == n { assert AfterCall(w.replies[i], p, w.procs[p], name); }
    }
    forall i, q | 0 <= i < |w'.replies| && q in w'.procs && Waiting(w'.procs[q])
      ensures AfterCall(w'.replies[i], q, w'.procs[q], name)
    {
      if i < n { assert AfterCall(w.replies[i], q, w.procs[q], name); }
    }
  }

  lemma CallStaysCounted(w: World, a: Action, q: nat, name: string)
    requires Enabled(w, a) && q in Next(w, a).procs && (q in w.procs ==> CallCounted(w, w.procs[q], name))
    ensures CallCounted(Next(w, a), Next(w, a).procs[q], name)
  {
    GenerationGrows(w, a, name);
    if q in w.procs && q != a.p { OthersStay(w, a, q); }
  }

  lemma QuietKeepsCounted(w: World, a: Action, name: string)
    requires Enabled(w, a) && Counted(w, name) && Next(w, a).replies == w.replies
    ensures Counted(Next(w, a), name)
  {
    var w' := Next(w, a);
    GenerationGrows(w, a, name);
    forall q | q in w'.procs ensures CallCounted(w', w'.procs[q], name) { CallStaysCounted(w, a, q, name); }
    forall i | 0 <= i < |w'.replies| ensures ReplyCounted(w', w'.replies[i], name) {
      assert ReplyCounted(w, w.replies[i], name);
    }
  }

  lemma QuietKeepsTurns(w: World, a: Action, name: string)
    requires Enabled(w, a) && Counted(w, name) && InTurn(w, name) && Next(w, a).replies == w.replies
    ensures InTurn(Next(w, a), name)
  {
    var w' := Next(w, a);
    forall i, q | 0 <= i < |w'.replies| && q in w'.procs && Waiting(w'.procs[q])
      ensures AfterCall(w'.replies[i], q, w'.procs[q], name)
    {
      assert ReplyCounted(w, w.replies[i], name);
      if q in w.procs && Waiting(w.procs[q]) { assert AfterCall(w.replies[i], q, w.procs[q], name); }
    }
  }

  lemma StepKeepsCounts(w: World, a: Action, name: string)
    requires Enabled(w, a) && Counted(w, name) && InTurn(w, name)
    ensures Counted(Next(w, a), name) && InTurn(Next(w, a), name)
  {
    if Next(w, a).replies == w.replies {
      QuietKeepsCounted(w, a, name);
      QuietKeepsTurns(w, a, name);
    } else {
      RepliesGrow(w, a);
      var x := w.procs[a.p];
      assert CallCounted(w, x, name);
      ReplyKeepsCounts(w, a.p, Replied(w, x), name);
    }
  }

  lemma StepKeepsNews(w: World, a: Action)
    requires Enabled(w, a) && FiredIffNews(w)
    ensures FiredIffNews(Next(w, a))
  {
  }

  lemma {:induction false} RunKeepsCounts(w: World, acts: seq<Action>, name: string)
    requires Feasible(w, acts) && Counted(w, name) && InTurn(w, name) && FiredIffNews(w)
    ensures Counted(Run(w, acts), name) && InTurn(Run(w, acts), name) && FiredIffNews(Run(w, acts))
    decreases |acts|
  {
    if acts != [] {
      StepKeepsCounts(w, acts[0], name);
      StepKeepsNews(w, acts[0]);
      RunKeepsCounts(Next(w, acts[0]), acts[1..], name);
    }
  }

  /** A client that passes the generation of its wait `i` to its later wait `j`, with no
      clear between the start of the first and the end of the second, never sees it go
      back and learns `fired` exactly when it grew; and if nothing has been committed on
      the name since wait `j` began, it ends up holding the generation of now. */
  lemma ClientMissesNothing(w: World, i: nat, j: nat, name: string)
    requires Reachable(w)
    requires i < j < |w.replies| && w.replies[i].p == w.replies[j].p && w.replies[i].name == w.replies[j].name == name
    requires w.replies[j].lastSeen == w.replies[i].generation
    requires w.replies[i].era == w.replies[j].endEra
    ensures w.replies[i].generation <= w.replies[j].generation
    ensures w.replies[j].fired <==> w.replies[i].generation < w.replies[j].generation
    ensures Generation(w, name) == w.replies[j].began && ClearsOf(w, name) == w.replies[j].era
            ==> w.replies[j].generation == Generation(w, name)
  {
    var acts: seq<Action> :| Feasible(Start(), acts) && w == Run(Start(), acts);
    RunKeepsCounts(Start(), acts, name);
    var r, s := w.replies[i], w.replies[j];
    assert After(r, s.p, s.name, s.began, s.era, name);
    assert ReplyCounted(w, r, name) && ReplyCounted(w, s, name);
  }

  // ----- exactly what a generation counts, clears included -----

  predicate IsSignal(a: Action, name: string) {
    a.SignalTx? && a.name == name
  }

  predicate IsClear(a: Action, name: string) {
    a.ClearTx? && a.name == name
  }

  /** The signals of `name` committed in the run. */
  function SignalsIn(acts: seq<Action>, name: string): nat {
    if acts == [] then 0
    else SignalsIn(acts[..|acts| - 1], name) + if IsSignal(acts[|acts| - 1], name) then 1 else 0
  }

  ghost predicate Clears(acts: seq<Action>, name: string) {
    exists i :: 0 <= i < |acts| && IsClear(acts[i], name)
  }

  /** The signals of `name` committed in the run since its last clear. */
  function SinceClear(acts: seq<Action>, name: string): nat {
    if acts == [] || IsClear(acts[|acts| - 1], name) then 0
    else SinceClear(acts[..|acts| - 1], name) + if IsSignal(acts[|acts| - 1], name) then 1 else 0
  }

  lemma {:induction false} RunSplit(w: World, front: seq<Action>, back: seq<Action>)
    requires Feasible(w, front + back)
    ensures Feasible(w, front) && Feasible(Run(w, front), back) && Run(w, front + back) == Run(Run(w, front), back)
    decreases |front|
  {
    if front == [] {
      assert front + back == back;
    } else {
      assert (front + back)[1..] == front[1..] + back;
      RunSplit(Next(w, front[0]), front[1..], back);
    }
  }

  /** In every run the generation is the number of signals since the last clear. */
  lemma {:induction false} GenerationCountsSinceClear(acts: seq<Action>, name: string)
    requires Feasible(Start(), acts)
    ensures Generation(Run(Start(), acts), name) == SinceClear(acts, name)
    decreases |acts|
  {
    if acts != [] {
      var front, last := acts[..|acts| - 1], acts[|acts| - 1];
      assert acts == front + [last];
      RunSplit(Start(), front, [last]);
      GenerationCountsSinceClear(front, name);
      assert Run(Run(Start(), front), [last]) == Next(Run(Start(), front), last);
    }
  }

  /** Without a clear in it, a stretch of the run adds its signals; with one, only what
      follows its last clear counts. */
  lemma {:induction false} SinceClearOver(front: seq<Action>, back: seq<Action>, name: string)
    ensures Clears(back, name) ==> SinceClear(front + back, name) == SinceClear(back, name)
    ensures !Clears(back, name) ==> SinceClear(front + back, name) == SinceClear(front, name) + SignalsIn(back, name)
    decreases |back|
  {
    if back == [] {
      assert front + back == front;
    } else {
      var rest, last := back[..|back| - 1], back[|back| - 1];
      assert (front + back)[..|front + back| - 1] == front + rest && (front + back)[|front + back| - 1] == last;
      SinceClearOver(front, rest, name);
      assert Clears(back, name) <==> Clears(rest, name) || IsClear(last, name) by {
        if Clears(rest, name) { var i :| 0 <= i < |rest| && IsClear(rest[i], name); assert IsClear(back[i], name); }
      }
    }
  }

  /** The reply that ends the wait of `p` by reading the generation. */
  ghost predicate RepliesWith(w: World, p: nat, generation: nat, fired: bool)
    requires Enabled(w, Read(p))
  {
    var w' := Next(w, Read(p));
    |w'.replies| == |w.replies| + 1 && w'.replies[|w.replies|].p == p
    && w'.replies[|w.replies|].generation == generation && w'.replies[|w.replies|].fired == fired
  }

  /** A read fires if and only if more signals were committed since the last clear than
      the caller has seen; otherwise the call blocks, unless it may not wait. */
  lemma ReadFiresExactly(acts: seq<Action>, p: nat)
    requires Feasible(Start(), acts) && Enabled(Run(Start(), acts), Read(p))
    ensures var w := Run(Start(), acts);
            var x, now := w.procs[p], SinceClear(acts, w.procs[p].name);
            && (now > x.lastSeen ==> RepliesWith(w, p, now, true))
            && (now <= x.lastSeen ==> if ClampWait(x.wait) == 0
                                      then RepliesWith(w, p, now, false)
                                      else p in Next(w, Read(p)).procs && Next(w, Read(p)).procs[p].Blocked?)
  {
    GenerationCountsSinceClear(acts, Run(Start(), acts).procs[p].name);
  }

  /** Exactly what a client that feeds generations back is told, in every run, clears
      included. The generation it passes was read after `before`; `after` is what has
      been committed since, and now its wait reads again. If `after` has no clear, the
      wait fires exactly if `after` has a signal, and the generation has grown by all of
      them. If `after` has a clear, it fires exactly if more signals followed the last
      clear than the client had seen: otherwise they are hidden from it. */
  lemma FedBackExactly(before: seq<Action>, after: seq<Action>, p: nat, name: string)
    requires Feasible(Start(), before + after) && Enabled(Run(Start(), before + after), Read(p))
    requires var x := Run(Start(), before + after).procs[p]; x.name == name && x.lastSeen == SinceClear(before, name)
    ensures var w, seen := Run(Start(), before + after), SinceClear(before, name);
            var now := if Clears(after, name) then SinceClear(after, name) else seen + SignalsIn(after, name);
            var fires := if Clears(after, name) then SinceClear(after, name) > seen else SignalsIn(after, name) > 0;
            Generation(w, name) == now && (RepliesWith(w, p, now, true) <==> fires)
    ensures Feasible(Start(), before) && Generation(Run(Start(), before), name) == SinceClear(before, name)
  {
    RunSplit(Start(), before, after);
    GenerationCountsSinceClear(before, name);
    GenerationCountsSinceClear(before + after, name);
    SinceClearOver(before, after, name);
    ReadFiresExactly(before + after, p);
  }

  /** So a committed signal is hidden from such a client if and only if a clear came in
      between and no more signals followed the last clear than it had seen before. */
  lemma SignalHiddenExactly(before: seq<Action>, after: seq<Action>, name: string)
    requires Feasible(Start(), before + after) && SignalsIn(after, name) > 0
    ensures Feasible(Start(), before)
    ensures Generation(Run(Start(), before + after), name) <= Generation(Run(Start(), before), name)
        <==> Clears(after, name) && SinceClear(after, name) <= SinceClear(before, name)
  {
    RunSplit(Start(), before, after);
    GenerationCountsSinceClear(before, name);
    GenerationCountsSinceClear(before + after, name);
    SinceClearOver(before, after, name);
  }

  /** Client `p` read generation `g` of `name` at some step of the run. */
  ghost predicate WasRead(acts: seq<Action>, p: nat, name: string, g: nat) {
    exists k :: 0 <= k < |acts| && acts[k] == Read(p) && g == SinceClear(acts[..k], name)
  }

  ghost predicate AllWereRead(acts: seq<Action>, w: World) {
    && (forall i :: 0 <= i < |w.replies| ==>
          WasRead(acts, w.replies[i].p, w.replies[i].name, w.replies[i].generation))
    && (forall p | p in w.procs && w.procs[p].Blocked? :: WasRead(acts, p, w.procs[p].name, w.procs[p].current))
  }

  lemma WasReadBefore(front: seq<Action>, last: Action, p: nat, name: string, g: nat)
    requires WasRead(front, p, name, g)
    ensures WasRead(front + [last], p, name, g)
  {
    var k :| 0 <= k < |front| && front[k] == Read(p) && g == SinceClear(front[..k], name);
    assert (front + [last])[k] == Read(p) && (front + [last])[..k] == front[..k];
  }

  lemma LastStepRead(front: seq<Action>, w: World, last: Action)
    requires AllWereRead(front, w) && Enabled(w, last)
    requires forall name :: Generation(w, name) == SinceClear(front, name)
    ensures AllWereRead(front + [last], Next(w, last))
  {
    var acts, w' := front + [last], Next(w, last);
    assert acts[|front|] == last && acts[..|front|] == front;
    forall i | 0 <= i < |w'.replies|
      ensures WasRead(acts, w'.replies[i].p, w'.replies[i].name, w'.replies[i].generation)
    {
      var r := w'.replies[i];
      if i < |w.replies| {
        WasReadBefore(front, last, r.p, r.name, r.generation);
      } else if last.GiveUp? {
        WasReadBefore(front, last, last.p, r.name, r.generation);
      }
    }
    forall p | p in w'.procs && w'.procs[p].Blocked? ensures WasRead(acts, p, w'.procs[p].name, w'.procs[p].current) {
      if p in w.procs && w.procs[p].Blocked? { WasReadBefore(front, last, p, w'.procs[p].name, w'.procs[p].current); }
    }
  }

  lemma {:induction false} RunsWereRead(acts: seq<Action>)
    requires Feasible(Start(), acts)
    ensures AllWereRead(acts, Run(Start(), acts))
    decreases |acts|
  {
    if acts != [] {
      var front, last := acts[..|acts| - 1], acts[|acts| - 1];
      assert acts == front + [last];
      RunSplit(Start(), front, [last]);
      RunsWereRead(front);
      forall name ensures Generation(Run(Start(), front), name) == SinceClear(front, name) {
        GenerationCountsSinceClear(front, name);
      }
      LastStepRead(front, Run(Start(), front), last);
      assert Run(Run(Start(), front), [last]) == Next(Run(Start(), front), last);
    }
  }

  /** Every reply, a timed-out one too, hands out a generation that its client really
      read: the number of signals since the last clear at that step. */
  lemma RepliesReportReads(acts: seq<Action>, i: nat)
    requires Feasible(Start(), acts) && i < |Run(Start(), acts).replies|
    ensures var r := Run(Start(), acts).replies[i]; WasRead(acts, r.p, r.name, r.generation)
  {
    RunsWereRead(acts);
  }

  // ----- a run in which a clear hides a signal -----

  lemma {:induction false} RunAppend(w: World, acts: seq<Action>, a: Action)
    requires Feasible(w, acts) && Enabled(Run(w, acts), a)
    ensures Feasible(w, acts + [a]) && Run(w, acts + [a]) == Next(Run(w, acts), a)
    decreases |acts|
  {
    if acts == [] {
      assert acts + [a] == [a];
    } else {
      RunAppend(Next(w, acts[0]), acts[1..], a);
      assert (acts + [a])[1..] == acts[1..] + [a];
    }
  }

  lemma ReachableNext(w: World, a: Action)
    requires Reachable(w) && Enabled(w, a)
    ensures Reachable(Next(w, a))
  {
    var acts: seq<Action> :| Feasible(Start(), acts) && w == Run(Start(), acts);
    RunAppend(Start(), acts, a);
  }

  lemma BeginAndCapture(w: World, p: nat, name: string, lastSeen: int) returns (w': World)
    requires Reachable(w) && p !in w.procs
    ensures Reachable(w') && w'.procs - {p} == w.procs && w'.replies == w.replies
    ensures w'.generations == w.generations && w'.signals == w.signals && w'.clears == w.clears
    ensures p in w'.procs && w'.procs[p].Captured?
    ensures w'.procs[p] == Captured(name, lastSeen, 0, Generation(w, name), ClearsOf(w, name), w'.procs[p].ch)
  {
    var w1 := Next(w, BeginWait(p, name, lastSeen, 0));
    ReachableNext(w, BeginWait(p, name, lastSeen, 0));
    w' := Next(w1, Capture(p));
    ReachableNext(w1, Capture(p));
  }

  /** One quick check (no waiting) by client `p`, from call to reply. */
  lemma QuickCheck(w: World, p: nat, name: string, lastSeen: int) returns (w': World)
    requires Reachable(w) && p !in w.procs
    ensures Reachable(w') && w'.procs == w.procs && w'.generations == w.generations && w'.signals == w.signals
    ensures var g, era := Generation(w, name), ClearsOf(w, name);
            w'.replies == w.replies + [Return(p, name, lastSeen, g, era, g, g > lastSeen, g, era)]
  {
    var w1 := BeginAndCapture(w, p, name, lastSeen);
    w' := Next(w1, Read(p));
    ReachableNext(w1, Read(p));
  }

  /** A committed signal with its broadcast. */
  lemma FullSignal(w: World, p: nat, name: string) returns (w': World)
    requires Reachable(w) && p !in w.procs
    ensures Reachable(w') && w'.procs == w.procs && w'.replies == w.replies
    ensures Generation(w', name) == Generation(w, name) + 1 && Signals(w', name) == Signals(w, name) + 1
  {
    var w1 := Next(w, SignalTx(p, name));
    ReachableNext(w, SignalTx(p, name));
    w' := Next(w1, Broadcast(p));
    ReachableNext(w1, Broadcast(p));
  }

  /** A committed clear with its broadcast. */
  lemma FullClear(w: World, p: nat, name: string) returns (w': World)
    requires Reachable(w) && p !in w.procs
    ensures Reachable(w') && w'.procs == w.procs && w'.replies == w.replies && w'.signals == w.signals
    ensures Generation(w', name) == 0
  {
    var w1 := Next(w, ClearTx(p, name));
    ReachableNext(w, ClearTx(p, name));
    w' := Next(w1, Broadcast(p));
    ReachableNext(w1, Broadcast(p));
  }

  /** A client feeding its last generation back is told that nothing fired, although
      a signal was committed in between. */
  ghost predicate MissedASignal(w: World, name: string) {
    && |w.replies| == 2 && Signals(w, name) == 2 == w.replies[0].generation + 1
    && w.replies[0].p == w.replies[1].p && w.replies[0].name == w.replies[1].name == name
    && w.replies[1].lastSeen == w.replies[0].generation && !w.replies[1].fired
  }

  /** Across a clear this can happen: the client holds generation 1, the event is
      cleared and signalled again, and its next check sees generation 1. */
  lemma ClearCanHideASignal(name: string)
    ensures exists w :: Reachable(w) && MissedASignal(w, name)
  {
    assert Run(Start(), []) == Start();
    var w1 := FullSignal(Start(), 0, name);
    var w2 := QuickCheck(w1, 1, name, 0);
    var w3 := FullClear(w2, 0, name);
    var w4 := FullSignal(w3, 0, name);
    var w5 := QuickCheck(w4, 1, name, 1);
    assert Reachable(w5) && MissedASignal(w5, name);
  }
}
