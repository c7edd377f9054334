/** The lock manager as a mutable object: the locks table, and a FIFO of waiter
    objects per name whose horizon and one-place signal channel change in place.
    Each method is one transaction or one critical section of the daemon. */
module LockManagers {
  import opened Base
  import opened Names
  import opened LockTable
  import opened WaitQueues

  class Waiter {
    const wakeToken: Token
    const agentID: string
    ghost const home: string   // the lock this waiter queues for
    var expiresAt: int
    var signalled: bool        // the channel of capacity one holds a value

    constructor (wakeToken: Token, agentID: string, expiresAt: int, ghost home: string)
      ensures this.wakeToken == wakeToken && this.agentID == agentID && this.home == home
      ensures this.expiresAt == expiresAt && !signalled
    {
      this.wakeToken, this.agentID, this.expiresAt := wakeToken, agentID, expiresAt;
      this.home, this.signalled := home, false;
    }

    /** Sends without blocking; a signal already pending absorbs the new one. */
    method Signal()
      modifies this`signalled
      ensures signalled
    {
      signalled := true;
    }
  }

  ghost function SlotOf(w: Waiter): Slot
    reads w
  {
    Slot(w.wakeToken, w.agentID, w.expiresAt)
  }

  ghost function SlotsOf(ws: seq<Waiter>): seq<Slot>
    reads ws
  {
    seq(|ws|, i requires 0 <= i < |ws| reads ws => SlotOf(ws[i]))
  }

  ghost predicate NoDuplicates(ws: seq<Waiter>) {
    forall i, j :: 0 <= i < j < |ws| ==> ws[i] != ws[j]
  }

  lemma {:induction false} KeepAppend(q: seq<Slot>, s: Slot, keep: Slot -> bool)
    ensures Keep(q + [s], keep) == Keep(q, keep) + (if keep(s) then [s] else [])
  {
    if q == [] {
      assert q + [s] == [s];
    } else {
      KeepAppend(q[1..], s, keep);
      assert (q + [s])[1..] == q[1..] + [s];
    }
  }

  lemma SlotsAppend(ws: seq<Waiter>, w: Waiter)
    ensures SlotsOf(ws + [w]) == SlotsOf(ws) + [SlotOf(w)]
  {
  }

  /** The first waiter with a wake token is where the line of values has it; with none, it is not in line. */
  lemma SlotIndex(ws: seq<Waiter>, id: Token, i: nat)
    requires i <= |ws| && forall j :: 0 <= j < i ==> ws[j].wakeToken != id
    requires i < |ws| ==> ws[i].wakeToken == id
    ensures IndexOf(SlotsOf(ws), id) == i
  {
    var q := SlotsOf(ws);
    assert forall j :: 0 <= j < |q| ==> q[j].id == ws[j].wakeToken;
  }

  /** `kept` holds the waiters that compacting the first `i` of `ws` with `keep` leaves. */
  ghost predicate Compacted(ws: seq<Waiter>, i: nat, kept: seq<Waiter>, keep: Slot -> bool)
    requires i <= |ws|
    reads ws, kept
  {
    && SlotsOf(kept) == Keep(SlotsOf(ws[..i]), keep)
    && NoDuplicates(kept)
    && (forall w | w in kept :: w in ws[..i])
  }

  lemma CompactStep(ws: seq<Waiter>, i: nat, kept: seq<Waiter>, keep: Slot -> bool)
    requires i < |ws| && NoDuplicates(ws) && Compacted(ws, i, kept, keep)
    ensures keep(SlotOf(ws[i])) ==> Compacted(ws, i + 1, kept + [ws[i]], keep)
    ensures !keep(SlotOf(ws[i])) ==> Compacted(ws, i + 1, kept, keep)
  {
    assert ws[..i + 1] == ws[..i] + [ws[i]];
    SlotsAppend(ws[..i], ws[i]);
    SlotsAppend(kept, ws[i]);
    KeepAppend(SlotsOf(ws[..i]), SlotOf(ws[i]), keep);
    assert ws[i] !in ws[..i];
    assert ws[i] !in kept;
  }

  /** The collector's compaction of one line: keeps what lasts beyond `now`. */
  method SweepLine(ws: seq<Waiter>, now: int) returns (kept: seq<Waiter>)
    requires NoDuplicates(ws)
    ensures SlotsOf(kept) == Sweep(SlotsOf(ws), now)
    ensures NoDuplicates(kept) && forall w | w in kept :: w in ws
  {
    kept := [];
    for i := 0 to |ws|
      invariant Compacted(ws, i, kept, Lasting(now))
    {
      CompactStep(ws, i, kept, Lasting(now));
      if ws[i].expiresAt > now {
        kept := kept + [ws[i]];
      }
    }
    assert ws[..|ws|] == ws;
  }

  /** The winner's compaction: keeps everyone but `w`. */
  method DropWaiter(ws: seq<Waiter>, w: Waiter) returns (kept: seq<Waiter>)
    requires NoDuplicates(ws)
    requires forall x | x in ws && x.wakeToken == w.wakeToken :: x == w
    ensures SlotsOf(kept) == Leave(SlotsOf(ws), w.wakeToken)
    ensures NoDuplicates(kept) && forall x | x in kept :: x in ws
  {
    kept := [];
    for i := 0 to |ws|
      invariant Compacted(ws, i, kept, Other(w.wakeToken))
    {
      CompactStep(ws, i, kept, Other(w.wakeToken));
      if ws[i] != w {
        kept := kept + [ws[i]];
      }
    }
    assert ws[..|ws|] == ws;
  }

  // ----- tokens handed out along a batch -----

  /** The first `i` names have the first `i` tokens of the supply. */
  ghost predicate Assigned(tokens: map<string, Token>, sorted: seq<string>, supply: seq<Token>, i: nat)
    requires i <= |sorted| && i <= |supply|
  {
    && tokens.Keys == Elements(sorted[..i])
    && (forall j :: 0 <= j < i ==> sorted[j] in tokens && tokens[sorted[j]] == supply[j])
  }

  function Rows(tokens: map<string, Token>, agent: string, now: int, ttl: int): Table {
    map n | n in tokens :: Row(agent, tokens[n], now, now + ttl)
  }

  lemma AssignStep(tokens: map<string, Token>, sorted: seq<string>, supply: seq<Token>, i: nat)
    requires i < |sorted| && i < |supply| && StrictlyIncreasing(sorted) && Assigned(tokens, sorted, supply, i)
    ensures Assigned(tokens[sorted[i] := supply[i]], sorted, supply, i + 1)
  {
    assert sorted[..i + 1] == sorted[..i] + [sorted[i]];
    ElementsAppend(sorted[..i], sorted[i]);
    forall j | 0 <= j < i ensures sorted[j] != sorted[i] { LessTrichotomy(sorted[j], sorted[i]); }
  }

  lemma RowsExtend(
      base: Table, tokens: map<string, Token>, name: string, token: Token, agent: string, now: int, ttl: int)
    ensures (base + Rows(tokens, agent, now, ttl))[name := Row(agent, token, now, now + ttl)]
         == base + Rows(tokens[name := token], agent, now, ttl)
  {
  }

  lemma AssignedApart(tokens: map<string, Token>, sorted: seq<string>, supply: seq<Token>)
    requires |sorted| <= |supply| && Assigned(tokens, sorted, supply, |sorted|)
    requires forall i, j :: 0 <= i < j < |supply| ==> supply[i] != supply[j]
    ensures tokens.Keys == Elements(sorted)
    ensures forall n | n in tokens :: tokens[n] in supply
    ensures forall m, n | m in tokens && n in tokens && m != n :: tokens[m] != tokens[n]
  {
    assert sorted[..|sorted|] == sorted;
    forall m | m in tokens ensures exists j :: 0 <= j < |sorted| && sorted[j] == m && tokens[m] == supply[j] {
      assert m in Elements(sorted);
      var j :| 0 <= j < |sorted| && sorted[j] == m;
    }
  }

  class LockManager {
    var table: Table
    var queues: map<string, seq<Waiter>>
    ghost var made: set<Waiter>   // every waiter ever created

    constructor ()
      ensures Valid() && table == map[] && queues == map[] && made == {}
    {
      table, queues, made := map[], map[], {};
    }

    ghost predicate Valid()
      reads this, made
    {
      && (forall n | n in queues :: queues[n] != [] && NoDuplicates(queues[n]))
      && (forall n, w | n in queues && w in queues[n] :: w in made && w.home == n)
      && (forall v, w | v in made && w in made && v.wakeToken == w.wakeToken :: v == w)
      && (forall w | w in made :: w.wakeToken != "")
    }

    ghost function Waiters(name: string): (r: seq<Waiter>)
      reads this
    {
      if name in queues then queues[name] else []
    }

    /** `w` is first in the line it queues in. */
    ghost predicate Leads(w: Waiter)
      reads this
    {
      Waiters(w.home) != [] && Waiters(w.home)[0] == w
    }

    /** The line of `name` as a value. */
    ghost function LineOf(name: string): seq<Slot>
      requires Valid()
      reads this, made
    {
      SlotsOf(Waiters(name))
    }

    // ----- the locks table -----

    /** One attempt: free or expired rows are taken, a live row is reported. */
    method TryAcquire(name: string, agentID: string, ttl: int, now: int, token: Token)
      returns (acquired: bool, holder: string, remaining: int)
      modifies `table
      ensures acquired <==> name !in old(table) || old(table)[name].expiresAt <= now
      ensures acquired ==> table == old(table)[name := Row(agentID, token, now, now + ttl)]
      ensures table == Acquire(old(table), name, agentID, token, now, ttl)
      ensures !acquired ==> holder == old(table)[name].agent && remaining == old(table)[name].expiresAt - now > 0
    {
      acquired, holder, remaining := false, "", 0;
      if name !in table {
        table := table[name := Row(agentID, token, now, now + ttl)];
        acquired := true;
      } else if table[name].expiresAt <= now {
        table := table[name := Row(agentID, token, now, now + ttl)];
        acquired := true;
      } else {
        holder, remaining := table[name].agent, SecsLeft(table[name].expiresAt, now);
      }
    }

    method Unlock(name: string, lockToken: Token, agentID: string) returns (released: bool)
      requires Valid()
      modifies `table, made
      ensures Valid()
      ensures released <==>
                && name in old(table)
                && (|| (lockToken != "" && lockToken == old(table)[name].token)
                    || (lockToken == "" && agentID != "" && agentID == old(table)[name].agent))
      ensures table == if released then old(table) - {name} else old(table)
      ensures table == Release(old(table), name, lockToken, agentID)
      ensures forall n :: LineOf(n) == old(LineOf(n))
      ensures forall w | w in made ::
                w.signalled == (old(w.signalled) || (released && Waiters(name) != [] && w == Waiters(name)[0]))
    {
      released := false;
      if name in table {
        var row := table[name];
        var authorized := (lockToken != "" && lockToken == row.token)
                          || (lockToken == "" && agentID != "" && agentID == row.agent);
        if authorized {
          table := table - {name};
          released := true;
        }
      }
      if released {
        WakeHead(name);
      }
    }

    /** Signals one waiter; no line changes. */
    method SignalWaiter(w: Waiter)
      requires Valid() && w in made
      modifies made
      ensures Valid()
      ensures forall n :: LineOf(n) == old(LineOf(n))
      ensures w.signalled && forall v | v in made && v != w :: v.signalled == old(v.signalled)
    {
      w.Signal();
    }

    /** Signals the head of the line of `name`, if anyone is in it. */
    method WakeHead(name: string)
      requires Valid()
      modifies made
      ensures Valid()
      ensures forall n :: LineOf(n) == old(LineOf(n))
      ensures forall w | w in made ::
                w.signalled == (old(w.signalled) || (Waiters(name) != [] && w == Waiters(name)[0]))
    {
      if name in queues && |queues[name]| > 0 {
        assert queues[name][0] in queues[name];
        SignalWaiter(queues[name][0]);
      }
    }

    // ----- renewal -----

    method Renew(name: string, lockToken: Token, ttl: int, now: int) returns (answer: Option<RenewAnswer>)
      modifies `table
      ensures answer == None <==> ttl <= 0
      ensures answer == Some(Renewed) <==>
                && ttl > 0 && name in old(table) && old(table)[name].expiresAt > now
                && lockToken == old(table)[name].token != ""
      ensures table == if answer == Some(Renewed)
                       then old(table)[name := old(table)[name].(expiresAt := now + ttl)] else old(table)
      ensures answer != None ==> answer.value == RenewOutcome(old(table), name, Bearer(lockToken), now)
                                 && table == LockTable.Renew(old(table), name, Bearer(lockToken), now, ttl)
    {
      if ttl <= 0 { return None; }
      if name !in table { return Some(NotFound); }
      if table[name].expiresAt <= now { return Some(NotFound); }
      if lockToken == "" || lockToken != table[name].token { return Some(NotOwned); }
      table := table[name := table[name].(expiresAt := now + ttl)];
      answer := Some(Renewed);
    }

    method RenewByAgent(name: string, agentID: string, ttl: int, now: int) returns (answer: Option<RenewAnswer>)
      modifies `table
      ensures answer == None <==> ttl <= 0
      ensures answer == Some(Renewed) <==>
                && ttl > 0 && name in old(table) && old(table)[name].expiresAt > now
                && agentID == old(table)[name].agent != ""
      ensures table == if answer == Some(Renewed)
                       then old(table)[name := old(table)[name].(expiresAt := now + ttl)] else old(table)
      ensures answer != None ==> answer.value == RenewOutcome(old(table), name, Holder(agentID), now)
                                 && table == LockTable.Renew(old(table), name, Holder(agentID), now, ttl)
    {
      if ttl <= 0 { return None; }
      if name !in table { return Some(NotFound); }
      if table[name].expiresAt <= now { return Some(NotFound); }
      if agentID == "" || agentID != table[name].agent { return Some(NotOwned); }
      table := table[name := table[name].(expiresAt := now + ttl)];
      answer := Some(Renewed);
    }

    // ----- the lines -----

    /** Gives the waiter at place `i` a new horizon. */
    method Refresh(name: string, i: nat, horizon: int)
      requires Valid() && i < |Waiters(name)|
      modifies made
      ensures Valid()
      ensures LineOf(name) == old(LineOf(name))[i := old(LineOf(name))[i].(horizon := horizon)]
      ensures Waiters(name)[i].expiresAt == horizon
      ensures forall n | n != name :: LineOf(n) == old(LineOf(n))
      ensures forall v | v in made :: v.signalled == old(v.signalled)
    {
      assert queues[name][i] in queues[name];
      queues[name][i].expiresAt := horizon;
    }

    /** Adds a new waiter at the tail. */
    method Append(name: string, agentID: string, newId: Token, horizon: int) returns (w: Waiter)
      requires Valid() && newId != "" && forall v | v in made :: v.wakeToken != newId
      modifies `queues, `made
      ensures Valid() && fresh(w) && made == old(made) + {w}
      ensures Waiters(name) == old(Waiters(name)) + [w] && w.wakeToken == newId && !w.signalled
      ensures w.agentID == agentID && w.expiresAt == horizon
      ensures LineOf(name) == old(LineOf(name)) + [Slot(newId, agentID, horizon)]
      ensures forall n | n != name :: LineOf(n) == old(LineOf(n))
    {
      var q := if name in queues then queues[name] else [];
      w := new Waiter(newId, agentID, horizon, name);
      SlotsAppend(q, w);
      made := made + {w};
      queues := queues[name := q + [w]];
      assert Waiters(name) == q + [w];
    }

    /** A waiter of the line of `name` has this wake token. */
    ghost predicate Known(name: string, wakeToken: Token)
      reads this
    {
      wakeToken != "" && exists v :: v in Waiters(name) && v.wakeToken == wakeToken
    }

    /** Where in the line of `name` the wake token is; its length when it is not there. */
    method FindSlot(name: string, wakeToken: Token) returns (i: nat)
      requires Valid()
      ensures i == IndexOf(LineOf(name), wakeToken)
      ensures i <= |Waiters(name)| && (i < |Waiters(name)| ==> Waiters(name)[i].wakeToken == wakeToken)
      ensures wakeToken != "" ==> (i < |Waiters(name)| <==> Known(name, wakeToken))
    {
      var q := if name in queues then queues[name] else [];
      i := 0;
      while i < |q| && q[i].wakeToken != wakeToken
        invariant i <= |q| && forall j :: 0 <= j < i ==> q[j].wakeToken != wakeToken
      {
        i := i + 1;
      }
      SlotIndex(q, wakeToken, i);
      if i < |q| { assert q[i] in Waiters(name); }
    }

    /** Re-attaches to the waiter the wake token names, if it is in line. */
    method TakeOver(name: string, wakeToken: Token, horizon: int) returns (w: Option<Waiter>)
      requires Valid() && wakeToken != ""
      modifies made
      ensures Valid()
      ensures w.Some? <==> old(Known(name, wakeToken))
      ensures w.Some? ==> w.value in Waiters(name) && w.value.wakeToken == wakeToken && w.value.expiresAt == horizon
      ensures forall agent, newId | w.Some? ::
                LineOf(name) == Join(old(LineOf(name)), agent, wakeToken, newId, horizon)
      ensures w.None? ==> LineOf(name) == old(LineOf(name)) && !Reattaches(old(LineOf(name)), wakeToken)
      ensures w.Some? ==> Reattaches(old(LineOf(name)), wakeToken)
      ensures forall n | n != name :: LineOf(n) == old(LineOf(n))
      ensures forall v | v in made :: v.signalled == old(v.signalled)
    {
      var i := FindSlot(name, wakeToken);
      if name in queues && i < |queues[name]| {
        w := Some(queues[name][i]);
        Refresh(name, i, horizon);
      } else {
        w := None;
      }
    }

    /** Joins the line of `name` as a new waiter at its tail, or takes over the very waiter
        the wake token names, wherever it stands; either way the horizon is set anew. */
    method Enqueue(name: string, agentID: string, wakeToken: Token, newId: Token, ttl: int, wait: int, now: int)
      returns (w: Waiter)
      requires Valid() && newId != "" && forall v | v in made :: v.wakeToken != newId
      modifies `queues, `made, made
      ensures Valid()
      ensures old(Known(name, wakeToken)) ==>
                w in old(Waiters(name)) && w.wakeToken == wakeToken && Waiters(name) == old(Waiters(name))
      ensures !old(Known(name, wakeToken)) ==>
                && fresh(w) && Waiters(name) == old(Waiters(name)) + [w]
                && w.wakeToken == newId && w.agentID == agentID
      ensures w in Waiters(name) && w.expiresAt == Horizon(now, ttl, ClampWait(wait))
      ensures LineOf(name) == Join(old(LineOf(name)), agentID, wakeToken, newId, Horizon(now, ttl, ClampWait(wait)))
      ensures forall n | n != name :: LineOf(n) == old(LineOf(n))
      ensures old(made) <= made && forall v | v in old(made) :: v.signalled == old(v.signalled)
      ensures w !in old(made) ==> !w.signalled
    {
      var horizon := Horizon(now, ttl, ClampWait(wait));
      if wakeToken != "" {
        var there := TakeOver(name, wakeToken, horizon);
        if there.Some? { return there.value; }
      }
      w := Append(name, agentID, newId, horizon);
    }

    /** Whether `w` is first in the line of `name`. */
    method IsHead(name: string, w: Waiter) returns (head: bool)
      requires Valid() && w in made
      ensures head <==> WaitQueues.IsHead(LineOf(name), w.wakeToken)
    {
      if name !in queues || |queues[name]| == 0 { return false; }
      assert queues[name][0] in queues[name];
      head := queues[name][0] == w;
    }

    /** Installs a compacted line; an empty one loses its entry. */
    method SetLine(name: string, kept: seq<Waiter>)
      requires Valid() && NoDuplicates(kept) && forall w | w in kept :: w in Waiters(name)
      modifies `queues
      ensures Valid() && Waiters(name) == kept
      ensures forall n | n != name :: Waiters(n) == old(Waiters(n)) && LineOf(n) == old(LineOf(n))
    {
      queues := if kept == [] then queues - {name} else queues[name := kept];
    }

    method Dequeue(name: string, w: Waiter)
      requires Valid() && w in made
      modifies `queues
      ensures Valid()
      ensures LineOf(name) == Leave(old(LineOf(name)), w.wakeToken)
      ensures forall n | n != name :: LineOf(n) == old(LineOf(n))
    {
      if name !in queues { return; }
      var kept := DropWaiter(queues[name], w);
      SetLine(name, kept);
    }

    /** The 1-based place of `w` in the line of `name`, 0 if it is gone. */
    method QueuePosition(name: string, w: Waiter) returns (pos: nat)
      requires Valid() && w in made
      ensures pos == Position(LineOf(name), w.wakeToken)
      ensures pos == 0 <==> w !in Waiters(name)
      ensures pos > 0 ==> pos <= |Waiters(name)| && Waiters(name)[pos - 1] == w
    {
      if name !in queues { return 0; }
      var q := queues[name];
      for i := 0 to |q|
        invariant forall j :: 0 <= j < i ==> q[j].wakeToken != w.wakeToken
      {
        assert q[i] in q;
        if q[i] == w {
          SlotIndex(q, w.wakeToken, i);
          return i + 1;
        }
      }
      SlotIndex(q, w.wakeToken, |q|);
      pos := 0;
    }

    /** The reply of a call that stops waiting: the live holder, and the wake token
        with the place in line, but only while the slot is really in line. */
    method NotAcquiredResult(name: string, w: Waiter, now: int) returns (r: StillWaiting)
      requires Valid() && w in made
      ensures r.heldBy == if LiveAt(table, name, now) then Some(table[name].agent) else None
      ensures r.remaining == if LiveAt(table, name, now) then table[name].expiresAt - now else 0
      ensures r.position == Position(LineOf(name), w.wakeToken)
      ensures if InLine(LineOf(name), w.wakeToken)
              then && r.wakeToken == Some(w.wakeToken)
                   && r.retryWith
                      == "call lock_resource again with wake_token=" + w.wakeToken + " to keep your place in line"
              else r.wakeToken == None && r.retryWith == ""
    {
      var heldBy, remaining := None, 0;
      if name in table && table[name].expiresAt > now {
        heldBy, remaining := Some(table[name].agent), SecsLeft(table[name].expiresAt, now);
      }
      var pos := QueuePosition(name, w);
      if pos < 1 { return StillWaiting(heldBy, remaining, None, 0, ""); }
      r := StillWaiting(heldBy, remaining, Some(w.wakeToken), pos, RetryHint(w.wakeToken));
    }

    // ----- the lock call, up to its blocking and between two blockings -----

    /** A lock call up to its first blocking: bad ttl, an immediate grant, a plain
        refusal when it may not wait, or a place in line. */
    method StartLock(name: string, agentID: string, ttl: int, wait: int, wakeToken: Token,
                     now: int, joinedAt: int, token: Token, newId: Token)
      returns (r: LockReply)
      requires Valid() && newId != "" && forall v | v in made :: v.wakeToken != newId
      modifies `table, `queues, `made, made
      ensures Valid()
      ensures r == BadTTL <==> ttl <= 0
      ensures table == if ttl <= 0 then old(table) else Acquire(old(table), name, agentID, token, now, ttl)
      ensures r.Locked? <==> ttl > 0 && !LiveAt(old(table), name, now)
      ensures r.Locked? ==> r.token == token
      ensures r.Refused? ==> ClampWait(wait) == 0
                             && r.holder == table[name].agent && r.remaining == table[name].expiresAt - now
      ensures r.Queued? <==> ttl > 0 && LiveAt(old(table), name, now) && wait > 0
      ensures r.Queued? ==> r.waiter in Waiters(name)
      ensures r.Queued? ==>
                if old(Known(name, wakeToken))
                then r.waiter.wakeToken == wakeToken && Waiters(name) == old(Waiters(name))
                else r.waiter.wakeToken == newId && Waiters(name) == old(Waiters(name)) + [r.waiter]
      ensures r.Queued? ==> r.waiter.expiresAt == Horizon(joinedAt, ttl, if wait > 50 then 50 else wait)
      ensures r.Queued? ==> LineOf(name) == Join(old(LineOf(name)), agentID, wakeToken, newId,
                                                 Horizon(joinedAt, ttl, ClampWait(wait)))
      ensures !r.Queued? ==> LineOf(name) == old(LineOf(name))
      ensures forall n | n != name :: LineOf(n) == old(LineOf(n))
    {
      if ttl <= 0 { return BadTTL; }
      var acquired, holder, remaining := TryAcquire(name, agentID, ttl, now, token);
      if acquired { return Locked(token); }
      if ClampWait(wait) == 0 { return Refused(holder, remaining); }
      var w := Enqueue(name, agentID, wakeToken, newId, ttl, wait, joinedAt);
      r := Queued(w);
    }

    /** One turn of the waiting loop: only the head tries, and a winner leaves the line. */
    method TryTurn(name: string, agentID: string, ttl: int, w: Waiter, now: int, token: Token) returns (won: bool)
      requires Valid() && w in made && ttl > 0
      modifies `table, `queues
      ensures Valid()
      ensures won <==> WaitQueues.IsHead(old(LineOf(name)), w.wakeToken) && !LiveAt(old(table), name, now)
      ensures table == if won then Acquire(old(table), name, agentID, token, now, ttl) else old(table)
      ensures LineOf(name) == if won then Leave(old(LineOf(name)), w.wakeToken) else old(LineOf(name))
      ensures forall n | n != name :: LineOf(n) == old(LineOf(n))
    {
      won := false;
      var head := IsHead(name, w);
      if head {
        var acquired, _, _ := TryAcquire(name, agentID, ttl, now, token);
        if acquired {
          Dequeue(name, w);
          won := true;
        }
      }
    }

    // ----- the reaper -----

    method LockIsFree(name: string, now: int) returns (free: bool)
      ensures free <==> !LiveAt(table, name, now)
    {
      free := name !in table || table[name].expiresAt <= now;
    }

    method SweepQueue(name: string, now: int)
      requires Valid()
      modifies `queues
      ensures Valid()
      ensures LineOf(name) == Sweep(old(LineOf(name)), now)
      ensures forall n | n != name :: LineOf(n) == old(LineOf(n)) && Waiters(n) == old(Waiters(n))
    {
      if name !in queues { return; }
      var kept := SweepLine(queues[name], now);
      SetLine(name, kept);
    }

    /** Drops the waiters past their horizon from every line; empty lines lose their entry. */
    method SweepQueues(now: int)
      requires Valid()
      modifies `queues
      ensures Valid()
      ensures forall n :: LineOf(n) == Sweep(old(LineOf(n)), now)
    {
      var todo := queues.Keys;
      while todo != {}
        invariant Valid()
        invariant forall n | n in todo :: LineOf(n) == old(LineOf(n))
        invariant forall n | n !in todo :: LineOf(n) == Sweep(old(LineOf(n)), now)
        decreases |todo|
      {
        var n :| n in todo;
        SweepQueue(n, now);
        todo := todo - {n};
      }
    }

    /** `w` is at the head of its line and the lock is free at `now`. */
    ghost predicate HeadOfFree(w: Waiter, now: int)
      reads this
    {
      Leads(w) && !LiveAt(table, w.home, now)
    }

    /** One tick: delete expired rows, drop waiters past their horizon, and signal
        the head of every line whose lock is free. */
    method ReapOnce(now: int)
      requires Valid()
      modifies `table, `queues, made
      ensures Valid()
      ensures table == Unexpired(old(table), now)
      ensures forall n :: LineOf(n) == Sweep(old(LineOf(n)), now)
      ensures forall w | w in made :: w.signalled == (old(w.signalled) || HeadOfFree(w, now))
      ensures forall n | Waiters(n) != [] && !LiveAt(table, n, now) :: Waiters(n)[0].signalled
    {
      table := map n | n in table && !(table[n].expiresAt <= now) :: table[n];
      SweepQueues(now);
      WakeHeads(now);
    }

    /** Notes the head of every line, then signals those whose lock is free. */
    method WakeHeads(now: int)
      requires Valid()
      modifies made
      ensures Valid()
      ensures forall n :: LineOf(n) == old(LineOf(n))
      ensures forall w | w in made :: w.signalled == (old(w.signalled) || HeadOfFree(w, now))
      ensures forall n | Waiters(n) != [] && !LiveAt(table, n, now) :: Waiters(n)[0].signalled
    {
      var heads: map<string, Waiter> := map n | n in queues && |queues[n]| > 0 :: queues[n][0];
      assert forall n | n in heads :: heads[n] in queues[n];
      WakeFreeHeads(heads, now);
      assert forall w | w in made :: w.home in heads && heads[w.home] == w <==> Leads(w);
      forall n | Waiters(n) != [] && !LiveAt(table, n, now) ensures Waiters(n)[0].signalled {
        assert Waiters(n)[0] in queues[n] && HeadOfFree(Waiters(n)[0], now);
      }
    }

    method WakeFreeHeads(heads: map<string, Waiter>, now: int)
      requires Valid() && forall n | n in heads :: heads[n] in made && heads[n].home == n
      modifies made
      ensures Valid()
      ensures forall n :: LineOf(n) == old(LineOf(n))
      ensures forall w | w in made ::
                w.signalled == (old(w.signalled)
                                || (w.home in heads && heads[w.home] == w && !LiveAt(table, w.home, now)))
    {
      var todo := heads.Keys;
      while todo != {}
        invariant Valid() && todo <= heads.Keys
        invariant forall n :: LineOf(n) == old(LineOf(n))
        invariant forall w | w in made ::
                    w.signalled == (old(w.signalled)
                                    || (&& w.home in heads && w.home !in todo && heads[w.home] == w
                                        && !LiveAt(table, w.home, now)))
        decreases |todo|
      {
        var n :| n in todo;
        var free := LockIsFree(n, now);
        if free { SignalWaiter(heads[n]); }
        todo := todo - {n};
      }
    }

    /** Deletes every lock the agent holds, expired or not, and wakes the head of each line. */
    method ReleaseAgentLocks(agentID: string) returns (count: nat)
      requires Valid()
      modifies `table, made
      ensures Valid()
      ensures table == ReleaseAgent(old(table), agentID)
      ensures count == |HeldBy(old(table), agentID)|
      ensures forall n :: LineOf(n) == old(LineOf(n))
      ensures forall w | w in made ::
                w.signalled == (old(w.signalled) || (w.home in HeldBy(old(table), agentID) && Leads(w)))
    {
      var freed := set n | n in table && table[n].agent == agentID;
      assert freed == HeldBy(table, agentID);
      table := table - freed;
      count := |freed|;
      var todo := freed;
      while todo != {}
        invariant Valid() && todo <= freed && table == old(table) - freed
        invariant forall n :: LineOf(n) == old(LineOf(n))
        invariant forall w | w in made ::
                    w.signalled == (old(w.signalled) || (w.home in freed - todo && Leads(w)))
        decreases |todo|
      {
        var n :| n in todo;
        WakeHead(n);
        todo := todo - {n};
      }
    }

    // ----- batches and listing -----

    /** Phase two of a batch: one fresh token and row per name, until `supply` fails. */
    method GrantAll(sorted: seq<string>, agentID: string, ttl: int, now: int, supply: seq<Token>)
      returns (r: BatchResult)
      requires StrictlyIncreasing(sorted)
      requires forall i, j :: 0 <= i < j < |supply| ==> supply[i] != supply[j]
      modifies `table
      ensures r.NoToken? || r.AllLocked?
      ensures r.NoToken? ==> |supply| < |sorted|
      ensures r.AllLocked? ==>
                && r.tokens.Keys == Elements(sorted)
                && (forall n | n in r.tokens :: r.tokens[n] in supply)
                && (forall m, n | m in r.tokens && n in r.tokens && m != n :: r.tokens[m] != r.tokens[n])
                && table == old(table) + Rows(r.tokens, agentID, now, ttl)
    {
      var tokens: map<string, Token> := map[];
      for i := 0 to |sorted|
        invariant i <= |supply| && Assigned(tokens, sorted, supply, i)
        invariant table == old(table) + Rows(tokens, agentID, now, ttl)
      {
        if i >= |supply| { return NoToken; }
        AssignStep(tokens, sorted, supply, i);
        RowsExtend(old(table), tokens, sorted[i], supply[i], agentID, now, ttl);
        tokens := tokens[sorted[i] := supply[i]];
        table := table[sorted[i] := Row(agentID, supply[i], now, now + ttl)];
      }
      AssignedApart(tokens, sorted, supply);
      r := AllLocked(tokens);
    }

    /** All names or none, in one transaction that is rolled back when a name is held
        or when the token source `supply` fails before the last name has its token. */
    method LockMany(names: seq<string>, agentID: string, ttl: int, now: int, supply: seq<Token>)
      returns (r: BatchResult)
      requires forall i, j :: 0 <= i < j < |supply| ==> supply[i] != supply[j]
      modifies `table
      ensures ttl <= 0 <==> r == InvalidTTL
      ensures !r.AllLocked? ==> table == old(table)
      ensures ttl > 0 ==> (r.Busy? <==> !AllFree(old(table), Elements(names), now))
      ensures r.Busy? ==> exists n :: n in names && LiveAt(table, n, now) && r.heldBy == table[n].agent
                                      && forall m :: m in names && LiveAt(table, m, now) ==> m == n || Less(n, m)
      ensures r.NoToken? ==> |supply| < |Elements(names)|
      ensures r.AllLocked? ==>
                && r.tokens.Keys == Elements(names)
                && (forall n | n in r.tokens :: r.tokens[n] in supply)
                && (forall m, n | m in r.tokens && n in r.tokens && m != n :: r.tokens[m] != r.tokens[n])
                && table == AcquireAll(old(table), Elements(names), agentID, r.tokens, now, ttl)
    {
      if ttl <= 0 { return InvalidTTL; }
      if |names| == 0 {
        assert Elements(names) == {};
        assert table == AcquireAll(table, {}, agentID, map[], now, ttl);
        return AllLocked(map[]);
      }
      var sorted := DedupeSorted(names);
      var snapshot := table;
      for i := 0 to |sorted|
        invariant forall j :: 0 <= j < i ==> !LiveAt(table, sorted[j], now)
      {
        var n := sorted[i];
        if n in table && table[n].expiresAt > now {
          assert n in Elements(sorted);
          forall m | m in names && LiveAt(table, m, now) ensures m == n || Less(n, m) {
            assert m in Elements(names);
            var j :| 0 <= j < |sorted| && sorted[j] == m;
          }
          return Busy(table[n].agent);
        }
      }
      assert forall n :: n in Elements(sorted) ==> n in sorted;
      IncreasingCardinality(sorted);
      r := GrantAll(sorted, agentID, ttl, now, supply);
      if r.NoToken? {
        table := snapshot;
      } else {
        assert table == AcquireAll(snapshot, Elements(names), agentID, r.tokens, now, ttl);
      }
    }

    /** Every live lock, by name. */
    method ListLocks(now: int) returns (out: seq<LockView>)
      ensures forall i, j :: 0 <= i < j < |out| ==> Less(out[i].name, out[j].name)
      ensures forall i :: 0 <= i < |out| ==>
                && LiveAt(table, out[i].name, now) && out[i].agent == table[out[i].name].agent
                && out[i].remaining == table[out[i].name].expiresAt - now
      ensures forall n | LiveAt(table, n, now) :: exists i :: 0 <= i < |out| && out[i].name == n
    {
      var names := SortedKeys(set n | n in table && table[n].expiresAt > now);
      out := [];
      for i := 0 to |names|
        invariant |out| == i
        invariant forall j :: 0 <= j < i ==>
                    && names[j] in table
                    && out[j] == LockView(names[j], table[names[j]].agent, table[names[j]].expiresAt - now)
      {
        assert names[i] in Elements(names);
        out := out + [LockView(names[i], table[names[i]].agent, SecsLeft(table[names[i]].expiresAt, now))];
      }
      forall n | LiveAt(table, n, now) ensures exists i :: 0 <= i < |out| && out[i].name == n {
        assert n in Elements(names);
        var i :| 0 <= i < |names| && names[i] == n;
        assert out[i].name == n;
      }
      assert forall i :: 0 <= i < |names| ==> names[i] in Elements(names);
    }
  }

  datatype LockReply = BadTTL | Locked(token: Token) | Refused(holder: string, remaining: int) | Queued(waiter: Waiter)

  datatype LockView = LockView(name: string, agent: string, remaining: int)

  datatype StillWaiting =
    StillWaiting(heldBy: Option<string>, remaining: int, wakeToken: Option<Token>, position: nat, retryWith: string)

  /** What a caller still in line is told to do. */
  function RetryHint(wakeToken: Token): string {
    "call lock_resource again with wake_token=" + wakeToken + " to keep your place in line"
  }

  datatype BatchResult = InvalidTTL | Busy(heldBy: string) | NoToken | AllLocked(tokens: map<string, Token>)
}
