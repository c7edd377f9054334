/** The in-memory FIFO of waiters behind each lock name. */
module WaitQueues {
  import opened Base

  /** A place in line. It outlives the call that took it: a later call that shows
      the same wake token takes the place over. */
  datatype Slot = Slot(id: Token, agent: string, horizon: int)

  /** By lock name; a name with nobody in line has no entry. */
  type Queues = map<string, seq<Slot>>

  function QueueOf(qs: Queues, name: string): seq<Slot> {
    if name in qs then qs[name] else []
  }

  function Put(qs: Queues, name: string, q: seq<Slot>): Queues {
    if q == [] then qs - {name} else qs[name := q]
  }

  ghost predicate NoEmptyQueue(qs: Queues) {
    forall n | n in qs :: qs[n] != []
  }

  /** Seconds granted beyond the wait window before an unvisited slot may be dropped. */
  const WAITER_GC_SLACK: int := 30

  function Horizon(now: int, ttl: int, wait: int): (r: int)
    ensures r >= now + wait + 30 && r >= now + 2 * ttl
    ensures r == now + wait + 30 || r == now + 2 * ttl
  {
    var byTtl := 2 * ttl;
    var byWait := wait + WAITER_GC_SLACK;
    now + if byWait > byTtl then byWait else byTtl
  }

  /** The place of `id` in line, counted from 0; `|q|` when it is not there. */
  function IndexOf(q: seq<Slot>, id: Token): (r: nat)
    ensures r <= |q|
    ensures r < |q| ==> q[r].id == id
    ensures forall i :: 0 <= i < r ==> q[i].id != id
  {
    if q == [] || q[0].id == id then 0 else 1 + IndexOf(q[1..], id)
  }

  predicate InLine(q: seq<Slot>, id: Token) {
    IndexOf(q, id) < |q|
  }

  predicate IsHead(q: seq<Slot>, id: Token) {
    q != [] && q[0].id == id
  }

  /** 1-based position reported to clients; 0 when the slot is gone. */
  function Position(q: seq<Slot>, id: Token): nat {
    if InLine(q, id) then IndexOf(q, id) + 1 else 0
  }

  /** The slot of `id` as it stands in line. */
  function SlotIn(q: seq<Slot>, id: Token): Slot
    requires InLine(q, id)
  {
    q[IndexOf(q, id)]
  }

  /** A position counts the slots up to and including one's own, and 0 means having none;
      position 1 is the head. */
  lemma PositionCounts(q: seq<Slot>, id: Token)
    ensures Position(q, id) == 0 <==> forall s | s in q :: s.id != id
    ensures Position(q, id) > 0 ==>
              && Position(q, id) <= |q| && q[Position(q, id) - 1].id == id
              && forall i :: 0 <= i < Position(q, id) - 1 ==> q[i].id != id
    ensures Position(q, id) == 1 <==> IsHead(q, id)
  {
    if s :| s in q && s.id == id {
      var i :| 0 <= i < |q| && q[i] == s;
    }
  }

  /** A caller showing the wake token of a slot in line takes that slot over. */
  predicate Reattaches(q: seq<Slot>, wake: Token) {
    wake != "" && InLine(q, wake)
  }

  /** Joins the line, or refreshes the horizon of the slot the wake token names. */
  function Join(q: seq<Slot>, agent: string, wake: Token, newId: Token, horizon: int): seq<Slot> {
    if Reattaches(q, wake)
    then q[IndexOf(q, wake) := q[IndexOf(q, wake)].(horizon := horizon)]
    else q + [Slot(newId, agent, horizon)]
  }

  /** The id of the slot a joining caller ends up with. */
  function JoinedAs(q: seq<Slot>, wake: Token, newId: Token): Token {
    if Reattaches(q, wake) then wake else newId
  }

  /** The slots that satisfy `keep`, in their order. */
  function Keep(q: seq<Slot>, keep: Slot -> bool): seq<Slot> {
    if q == [] then []
    else (if keep(q[0]) then [q[0]] else []) + Keep(q[1..], keep)
  }

  function Other(id: Token): Slot -> bool {
    (s: Slot) => s.id != id
  }

  function Lasting(now: int): Slot -> bool {
    (s: Slot) => s.horizon > now
  }

  /** Takes a slot out of the line. */
  function Leave(q: seq<Slot>, id: Token): seq<Slot> {
    Keep(q, Other(id))
  }

  /** Garbage collection: the slots whose horizon lies beyond `now`. */
  function Sweep(q: seq<Slot>, now: int): seq<Slot> {
    Keep(q, Lasting(now))
  }

  function SweepAll(qs: Queues, now: int): Queues {
    map n | n in qs && Sweep(qs[n], now) != [] :: Sweep(qs[n], now)
  }

  /** The head of every line. */
  function Heads(qs: Queues): map<string, Token> {
    map n | n in qs && qs[n] != [] :: qs[n][0].id
  }

  // ----- lines as ordered history -----

  /** When `id` arrived: its place in the log of arrivals. */
  ghost function Rank(log: seq<Token>, id: Token): (r: nat)
    requires id in log
    ensures r < |log| && log[r] == id
    ensures forall i :: 0 <= i < r ==> log[i] != id
  {
    if log[0] == id then 0 else 1 + Rank(log[1..], id)
  }

  lemma {:induction false} RankStable(log: seq<Token>, later: seq<Token>, id: Token)
    requires id in log
    ensures id in log + later && Rank(log + later, id) == Rank(log, id)
  {
    assert forall i :: 0 <= i < |log| ==> (log + later)[i] == log[i];
    assert (log + later)[Rank(log, id)] == id;
  }

  /** The line holds arrivals of the log, each once, in the order they came. */
  ghost predicate InArrivalOrder(q: seq<Slot>, log: seq<Token>) {
    && (forall i :: 0 <= i < |q| ==> q[i].id in log)
    && (forall i, j :: 0 <= i < j < |q| ==> Rank(log, q[i].id) < Rank(log, q[j].id))
  }

  lemma {:induction false} KeepFacts(q: seq<Slot>, keep: Slot -> bool)
    ensures forall s :: s in Keep(q, keep) <==> s in q && keep(s)
    ensures q != [] && keep(q[0]) ==> Keep(q, keep) != [] && Keep(q, keep)[0] == q[0]
    ensures |Keep(q, keep)| <= |q|
  {
    if q != [] {
      KeepFacts(q[1..], keep);
      assert q == [q[0]] + q[1..];
    }
  }

  /** Everyone in `q` came after `id`. */
  ghost predicate AllAfter(q: seq<Slot>, log: seq<Token>, id: Token) {
    && id in log
    && forall s | s in q :: s.id in log && Rank(log, id) < Rank(log, s.id)
  }

  lemma TailInOrder(q: seq<Slot>, log: seq<Token>)
    requires q != [] && InArrivalOrder(q, log)
    ensures InArrivalOrder(q[1..], log) && AllAfter(q[1..], log, q[0].id)
  {
    var tail := q[1..];
    assert forall i :: 0 <= i < |tail| ==> tail[i] == q[i + 1];
  }

  lemma PrependInOrder(s: Slot, rest: seq<Slot>, log: seq<Token>)
    requires InArrivalOrder(rest, log) && AllAfter(rest, log, s.id)
    ensures InArrivalOrder([s] + rest, log)
  {
    assert forall i :: 0 <= i < |rest| ==> rest[i] in rest;
  }

  lemma {:induction false} KeepInOrder(q: seq<Slot>, keep: Slot -> bool, log: seq<Token>)
    requires InArrivalOrder(q, log)
    ensures InArrivalOrder(Keep(q, keep), log)
  {
    if q != [] {
      TailInOrder(q, log);
      KeepInOrder(q[1..], keep, log);
      KeepFacts(q[1..], keep);
      PrependInOrder(q[0], Keep(q[1..], keep), log);
    }
  }

  lemma DistinctIds(q: seq<Slot>, log: seq<Token>, i: nat)
    requires InArrivalOrder(q, log) && i < |q|
    ensures IndexOf(q, q[i].id) == i
  {
    assert forall k :: 0 <= k < i ==> Rank(log, q[k].id) < Rank(log, q[i].id);
  }

  /** In `after`, `id` stands no further back than in `before`, if it is there at all. */
  ghost predicate NotBehind(before: seq<Slot>, after: seq<Slot>, id: Token) {
    InLine(after, id) ==> InLine(before, id) && IndexOf(after, id) <= IndexOf(before, id)
  }

  lemma {:induction false} KeepIndex(q: seq<Slot>, keep: Slot -> bool, id: Token)
    requires InLine(q, id) && keep(q[IndexOf(q, id)])
    ensures InLine(Keep(q, keep), id) && IndexOf(Keep(q, keep), id) <= IndexOf(q, id)
    ensures Keep(q, keep)[IndexOf(Keep(q, keep), id)] == q[IndexOf(q, id)]
  {
    if q[0].id == id {
      assert Keep(q, keep)[0] == q[0];
    } else {
      KeepIndex(q[1..], keep, id);
      var kept, rest := Keep(q, keep), Keep(q[1..], keep);
      if keep(q[0]) {
        assert kept[0] == q[0] && kept[1..] == rest;
      } else {
        assert kept == rest;
      }
    }
  }

  /** Taking slots out leaves exactly the kept ones, in arrival order, and pushes nobody back. */
  lemma KeepShortens(q: seq<Slot>, keep: Slot -> bool, log: seq<Token>, id: Token)
    requires InArrivalOrder(q, log)
    ensures InArrivalOrder(Keep(q, keep), log)
    ensures InLine(Keep(q, keep), id) <==> InLine(q, id) && keep(q[IndexOf(q, id)])
    ensures InLine(Keep(q, keep), id) ==> Keep(q, keep)[IndexOf(Keep(q, keep), id)] == q[IndexOf(q, id)]
    ensures NotBehind(q, Keep(q, keep), id)
  {
    KeepInOrder(q, keep, log);
    KeepFacts(q, keep);
    var kept := Keep(q, keep);
    if InLine(kept, id) {
      var s := kept[IndexOf(kept, id)];
      assert s in q && keep(s);
      var i :| 0 <= i < |q| && q[i] == s;
      DistinctIds(q, log, i);
    }
    if InLine(q, id) && keep(q[IndexOf(q, id)]) { KeepIndex(q, keep, id); }
  }
}
