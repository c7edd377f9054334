/** The event manager as a mutable object: a generation per event name, and one
    broadcast channel per name that is closed and replaced to wake every waiter. */
module Events {
  import opened Base

  /** A channel that carries no values; closing it wakes all receivers for good. */
  class Channel {
    var closed: bool
    ghost const home: string

    constructor (ghost home: string)
      ensures !closed && this.home == home
    {
      closed, this.home := false, home;
    }
  }

  /** What other callers do to one event while a wait is blocked. */
  datatype Interference = SignalIt | ClearIt

  function Bump(generation: nat, op: Interference): nat {
    if op.SignalIt? then generation + 1 else 0
  }

  function BumpAll(generation: nat, ops: seq<Interference>): nat
    decreases |ops|
  {
    if ops == [] then generation else BumpAll(Bump(generation, ops[0]), ops[1..])
  }

  /** One turn of the waiting loop, as others and the clock make it: what they do between
      the capture of the channel and the read, what they do after the read, and whether
      the deadline (or the caller's hanging up) is what ends the block, which it may be
      even when the channel has been closed as well. */
  datatype Round = Round(early: seq<Interference>, late: seq<Interference>, expired: bool)

  /** The wait ends in this round: nothing but the deadline can wake it, or it comes first. */
  predicate Ends(r: Round) {
    r.expired || (r.early == [] && r.late == [])
  }

  /** A round beyond the listed ones is one in which nobody does anything. */
  function RoundAt(rounds: seq<Round>, k: nat): Round {
    if k < |rounds| then rounds[k] else Round([], [], true)
  }

  /** How a wait ends: at once when the generation it reads is news, in the first round
      when it may not block, or else at the deadline. */
  function WaitOutcome(generation: nat, lastSeen: int, blocking: bool, rounds: seq<Round>): (nat, bool)
    decreases |rounds|
  {
    var current := BumpAll(generation, RoundAt(rounds, 0).early);
    if current > lastSeen then (current, true)
    else if !blocking || Ends(RoundAt(rounds, 0)) then (current, false)
    else WaitOutcome(BumpAll(current, rounds[0].late), lastSeen, blocking, rounds[1..])
  }

  /** The generation that round `k` of the wait reads. */
  function ReadIn(generation: nat, rounds: seq<Round>, k: nat): nat
    requires k <= |rounds|
    decreases k
  {
    var current := BumpAll(generation, RoundAt(rounds, 0).early);
    if k == 0 then current else ReadIn(BumpAll(current, rounds[0].late), rounds[1..], k - 1)
  }

  /** A wait returns what it reads in the first round that is news to the caller or in
      which it may not go on, and it fires in the former case only. */
  lemma {:induction false} ReturnsAtFirstNews(generation: nat, lastSeen: int, blocking: bool, rounds: seq<Round>)
    returns (k: nat)
    ensures k <= |rounds|
    ensures WaitOutcome(generation, lastSeen, blocking, rounds)
         == (ReadIn(generation, rounds, k), ReadIn(generation, rounds, k) > lastSeen)
    ensures forall i: nat | i < k ::
              && ReadIn(generation, rounds, i) <= lastSeen && blocking
              && !rounds[i].expired && (rounds[i].early != [] || rounds[i].late != [])
    ensures ReadIn(generation, rounds, k) > lastSeen || !blocking || k == |rounds|
            || rounds[k].expired || (rounds[k].early == [] && rounds[k].late == [])
    decreases |rounds|
  {
    var current := BumpAll(generation, RoundAt(rounds, 0).early);
    if current > lastSeen || !blocking || Ends(RoundAt(rounds, 0)) {
      k := 0;
    } else {
      var g', rest := BumpAll(current, rounds[0].late), rounds[1..];
      var k' := ReturnsAtFirstNews(g', lastSeen, blocking, rest);
      k := k' + 1;
      forall i: nat | i < k
        ensures ReadIn(generation, rounds, i) <= lastSeen && blocking && !Ends(rounds[i])
      {
        if i > 0 { assert ReadIn(generation, rounds, i) == ReadIn(g', rest, i - 1) && rounds[i] == rest[i - 1]; }
      }
    }
  }

  class EventManager {
    var generations: map<string, nat>
    var chans: map<string, Channel>

    constructor ()
      ensures Valid() && generations == map[] && chans == map[]
    {
      generations, chans := map[], map[];
    }

    /** The channel of a name is open and serves no other name. */
    ghost predicate Valid()
      reads this, chans.Values
    {
      forall n | n in chans :: !chans[n].closed && chans[n].home == n
    }

    ghost function Stored(name: string): nat
      reads this
    {
      if name in generations then generations[name] else 0
    }

    /** The current broadcast channel, created on first use. */
    method BroadcastChan(name: string) returns (ch: Channel)
      requires Valid()
      modifies `chans
      ensures Valid() && name in chans && chans[name] == ch
      ensures forall n | n in old(chans) :: n in chans && chans[n] == old(chans[n])
      ensures forall n | n in chans && n !in old(chans) :: n == name && fresh(chans[n])
    {
      if name in chans { return chans[name]; }
      ch := new Channel(name);
      chans := chans[name := ch];
    }

    /** Closes the current channel and installs a fresh one; nothing to do if nobody ever waited. */
    method Broadcast(name: string)
      requires Valid()
      modifies `chans, if name in chans then {chans[name]} else {}
      ensures Valid() && chans.Keys == old(chans).Keys
      ensures name in old(chans) ==> old(chans[name]).closed && fresh(chans[name])
      ensures forall n | n in chans && n != name :: chans[n] == old(chans[n])
    {
      if name in chans {
        chans[name].closed := true;
        var ch := new Channel(name);
        chans := chans[name := ch];
      }
    }

    method Signal(name: string) returns (generation: nat)
      requires Valid()
      modifies this, if name in chans then {chans[name]} else {}
      ensures Valid() && chans.Keys == old(chans).Keys
      ensures generations == old(generations)[name := generation] && generation == old(Stored(name)) + 1
      ensures name in old(chans) ==> old(chans[name]).closed && fresh(chans[name])
      ensures forall n | n in chans && n != name :: chans[n] == old(chans[n])
    {
      generation := (if name in generations then generations[name] else 0) + 1;
      generations := generations[name := generation];
      Broadcast(name);
    }

    method Clear(name: string)
      requires Valid()
      modifies this, if name in chans then {chans[name]} else {}
      ensures Valid() && chans.Keys == old(chans).Keys
      ensures generations == old(generations) - {name}
      ensures name in old(chans) ==> old(chans[name]).closed && fresh(chans[name])
      ensures forall n | n in chans && n != name :: chans[n] == old(chans[n])
    {
      generations := generations - {name};
      Broadcast(name);
    }

    method Generation(name: string) returns (generation: nat)
      ensures generation == Stored(name)
    {
      generation := if name in generations then generations[name] else 0;
    }

    /** Others act on `name` while a wait is blocked on its channel. */
    method Meanwhile(name: string, ops: seq<Interference>)
      requires Valid() && name in chans
      modifies this, chans[name]
      ensures Valid() && name in chans
      ensures Stored(name) == BumpAll(old(Stored(name)), ops)
      ensures ops != [] <==> old(chans[name]).closed
      ensures if ops == [] then chans[name] == old(chans[name]) else fresh(chans[name])
    {
      ghost var was := chans[name];
      for i := 0 to |ops|
        invariant Valid() && name in chans
        invariant BumpAll(Stored(name), ops[i..]) == BumpAll(old(Stored(name)), ops)
        invariant if i == 0 then chans[name] == was && !was.closed else was.closed && fresh(chans[name])
      {
        assert ops[i..][0] == ops[i] && ops[i..][1..] == ops[i + 1..];
        match ops[i]
        case SignalIt => var _ := Signal(name);
        case ClearIt => Clear(name);
      }
    }

    /** One turn of the waiting loop: capture the channel, read the generation, block. */
    method Turn(name: string, lastSeen: int, blocking: bool, round: Round) returns (current: nat, over: bool)
      requires Valid()
      modifies this, if name in chans then {chans[name]} else {}
      ensures Valid() && name in chans
      ensures (name in old(chans) && chans[name] == old(chans[name])) || fresh(chans[name])
      ensures current == BumpAll(old(Stored(name)), round.early)
      ensures over <==> current > lastSeen || !blocking || Ends(round)
      ensures !over ==> Stored(name) == BumpAll(current, round.late)
    {
      var ch := BroadcastChan(name);
      Meanwhile(name, round.early);
      current := Generation(name);
      if current > lastSeen || !blocking { return current, true; }
      Meanwhile(name, round.late);
      over := round.expired || !ch.closed;
    }

    /** Waits until the generation passes `lastSeen`, or until the deadline, or checks
        once if it may not block. */
    method Wait(name: string, lastSeen: int, wait: int, rounds: seq<Round>)
      returns (generation: nat, fired: bool)
      requires Valid()
      modifies this, if name in chans then {chans[name]} else {}
      ensures Valid()
      ensures (generation, fired) == WaitOutcome(old(Stored(name)), lastSeen, wait > 0, rounds)
      ensures fired <==> generation > lastSeen
    {
      var limit := ClampWait(wait);
      var i := 0;
      while true
        invariant 0 <= i <= |rounds| && Valid()
        invariant WaitOutcome(Stored(name), lastSeen, limit > 0, rounds[i..])
               == WaitOutcome(old(Stored(name)), lastSeen, limit > 0, rounds)
        invariant name in chans ==> (name in old(chans) && chans[name] == old(chans[name])) || fresh(chans[name])
        decreases |rounds| - i
      {
        assert RoundAt(rounds[i..], 0) == RoundAt(rounds, i);
        var current, over := Turn(name, lastSeen, limit > 0, RoundAt(rounds, i));
        if over { return current, current > lastSeen; }
        assert rounds[i..][1..] == rounds[i + 1..];
        i := i + 1;
      }
    }
  }
}
