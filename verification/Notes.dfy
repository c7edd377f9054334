/** The shared scratchpad: notes with optional expiry, compare-and-swap, and counters. */
module Notes {
  import opened Base

  datatype Note = Note(value: string, author: Option<string>, updatedAt: int, expiresAt: Option<int>)

  datatype Counter = Counter(value: int, updatedAt: int)

  datatype Store = Store(notes: map<string, Note>, counters: map<string, Counter>)

  /** An empty author is stored as no author. */
  function Nullable(author: string): Option<string> {
    if author == "" then None else Some(author)
  }

  function ExpiryOf(ttl: int, now: int): Option<int> {
    if ttl > 0 then Some(now + ttl) else None
  }

  predicate Alive(n: Note, now: int) {
    n.expiresAt.None? || n.expiresAt.value > now
  }

  /** What a reader at `now` takes the key to hold: "" when absent or expired. */
  function Effective(s: Store, key: string, now: int): string {
    if key in s.notes && Alive(s.notes[key], now) then s.notes[key].value else ""
  }

  function Set(s: Store, key: string, value: string, author: string, ttl: int, now: int): Store {
    s.(notes := s.notes[key := Note(value, Nullable(author), now, ExpiryOf(ttl, now))])
  }

  predicate Swaps(s: Store, key: string, expected: string, now: int) {
    Effective(s, key, now) == expected
  }

  function SetIf(s: Store, key: string, expected: string, newValue: string, author: string, ttl: int, now: int): Store {
    if Swaps(s, key, expected, now) then Set(s, key, newValue, author, ttl, now) else s
  }

  function Delete(s: Store, key: string): Store {
    s.(notes := s.notes - {key})
  }

  function Count(s: Store, name: string): int {
    if name in s.counters then s.counters[name].value else 0
  }

  function Increment(s: Store, name: string, step: int, now: int): Store {
    s.(counters := s.counters[name := Counter(Count(s, name) + step, now)])
  }

  // ----- what later readers see -----

  /** What a read of `key` at second `m` finds: the value, and its author, "" if none. */
  datatype Reading = Nothing | Found(value: string, author: string)

  function Reads(s: Store, key: string, m: int): Reading {
    if key in s.notes && (s.notes[key].expiresAt.None? || m < s.notes[key].expiresAt.value)
    then Found(s.notes[key].value, if s.notes[key].author.None? then "" else s.notes[key].author.value)
    else Nothing
  }

  /** A note set at `now` is what every reader finds, with its author, for ever without a
      positive ttl and otherwise until the ttl has run out; no other key is touched. */
  lemma SetSeenBy(s: Store, key: string, value: string, author: string, ttl: int, now: int, k: string, m: int)
    ensures Reads(Set(s, key, value, author, ttl, now), k, m) ==
              if k != key then Reads(s, k, m)
              else if ttl <= 0 || m < now + ttl then Found(value, author) else Nothing
  {
  }

  /** A swap sets the note exactly when the reader at its own second finds the expected
      value, or nothing when "" is expected; otherwise nothing changes for anyone. */
  lemma SwapSeenBy(
      s: Store, key: string, expected: string, newValue: string, author: string, ttl: int, now: int, k: string, m: int)
    ensures Swaps(s, key, expected, now) <==>
              match Reads(s, key, now) case Nothing => expected == "" case Found(value, _) => expected == value
    ensures Reads(SetIf(s, key, expected, newValue, author, ttl, now), k, m) ==
              if k != key || !Swaps(s, key, expected, now) then Reads(s, k, m)
              else if ttl <= 0 || m < now + ttl then Found(newValue, author) else Nothing
    ensures Effective(s, key, m) == match Reads(s, key, m) case Nothing => "" case Found(value, _) => value
  {
  }

  /** A deleted note is found by nobody, and only it is gone. */
  lemma DeleteSeenBy(s: Store, key: string, k: string, m: int)
    ensures Reads(Delete(s, key), k, m) == if k == key then Nothing else Reads(s, k, m)
    ensures Count(Delete(s, key), k) == Count(s, k)
  {
  }

  /** An increment moves its own counter by its step from 0 when absent, and nothing else. */
  lemma IncrementSeenBy(s: Store, name: string, step: int, now: int, k: string, m: int)
    ensures Count(Increment(s, name, step, now), k) == Count(s, k) + if k == name then step else 0
    ensures k !in s.counters ==> Count(s, k) == 0
    ensures Reads(Increment(s, name, step, now), k, m) == Reads(s, k, m)
  {
  }

  // ----- runs of whole operations, from any number of clients -----

  datatype Op =
    | SetOp(key: string, value: string, author: string, ttl: int, now: int)
    | CasOp(key: string, expected: string, newValue: string, author: string, ttl: int, now: int)
    | DeleteOp(key: string)
    | AddOp(name: string, step: int, now: int)

  function Apply(s: Store, op: Op): Store {
    match op
    case SetOp(key, value, author, ttl, now) => Set(s, key, value, author, ttl, now)
    case CasOp(key, expected, newValue, author, ttl, now) => SetIf(s, key, expected, newValue, author, ttl, now)
    case DeleteOp(key) => Delete(s, key)
    case AddOp(name, step, now) => Increment(s, name, step, now)
  }

  function Final(s: Store, ops: seq<Op>): Store
    decreases |ops|
  {
    if ops == [] then s else Final(Apply(s, ops[0]), ops[1..])
  }

  predicate Touches(op: Op, key: string) {
    match op
    case SetOp(k, _, _, _, _) => k == key
    case CasOp(k, _, _, _, _, _) => k == key
    case DeleteOp(k) => k == key
    case AddOp(_, _, _) => false
  }

  /** A successful swap: what it replaced and what it wrote. */
  datatype Swap = Swap(expected: string, newValue: string)

  /** The successful swaps on `key`, in order. */
  function Wins(s: Store, ops: seq<Op>, key: string): seq<Swap>
    decreases |ops|
  {
    if ops == [] then []
    else
      (if ops[0].CasOp? && ops[0].key == key && Swaps(s, key, ops[0].expected, ops[0].now)
       then [Swap(ops[0].expected, ops[0].newValue)] else [])
      + Wins(Apply(s, ops[0]), ops[1..], key)
  }

  /** The key changes by compare-and-swap without expiry only; other keys may see anything. */
  ghost predicate SwapOnly(s: Store, ops: seq<Op>, key: string) {
    && (key in s.notes ==> s.notes[key].expiresAt.None?)
    && (forall i :: 0 <= i < |ops| && Touches(ops[i], key) ==> ops[i].CasOp? && ops[i].ttl <= 0)
  }

  /** The value of a key that does not expire. */
  function ValueOf(s: Store, key: string): string {
    if key in s.notes then s.notes[key].value else ""
  }

  /** Successful swaps form a chain from the first value to the last. */
  ghost predicate Chain(start: string, wins: seq<Swap>, end: string)
    decreases |wins|
  {
    if wins == [] then start == end else wins[0].expected == start && Chain(wins[0].newValue, wins[1..], end)
  }

  predicate WinsAt(s: Store, op: Op, key: string) {
    op.CasOp? && op.key == key && Swaps(s, key, op.expected, op.now)
  }

  lemma OneOperation(s: Store, ops: seq<Op>, key: string)
    requires ops != [] && SwapOnly(s, ops, key)
    ensures SwapOnly(Apply(s, ops[0]), ops[1..], key)
    ensures WinsAt(s, ops[0], key) ==>
              ops[0].expected == ValueOf(s, key) && ops[0].newValue == ValueOf(Apply(s, ops[0]), key)
    ensures !WinsAt(s, ops[0], key) ==> ValueOf(Apply(s, ops[0]), key) == ValueOf(s, key)
  {
    assert Touches(ops[0], key) ==> ops[0].CasOp? && ops[0].ttl <= 0;
  }

  lemma WinsUnfold(s: Store, ops: seq<Op>, key: string)
    requires ops != []
    ensures WinsAt(s, ops[0], key) ==>
              && Wins(s, ops, key) != [] && Wins(s, ops, key)[0] == Swap(ops[0].expected, ops[0].newValue)
              && Wins(s, ops, key)[1..] == Wins(Apply(s, ops[0]), ops[1..], key)
    ensures !WinsAt(s, ops[0], key) ==> Wins(s, ops, key) == Wins(Apply(s, ops[0]), ops[1..], key)
  {
  }

  /** Over any run, each successful swap replaces what the one before wrote. */
  lemma {:induction false} SwapsFormAChain(s: Store, ops: seq<Op>, key: string)
    requires SwapOnly(s, ops, key)
    ensures Chain(ValueOf(s, key), Wins(s, ops, key), ValueOf(Final(s, ops), key))
    decreases |ops|
  {
    if ops != [] {
      OneOperation(s, ops, key);
      WinsUnfold(s, ops, key);
      SwapsFormAChain(Apply(s, ops[0]), ops[1..], key);
    }
  }

  /** In a chain, whoever wins on the same expected value a second time needs someone
      to have written that value back in between. */
  lemma {:induction false} SecondWinNeedsARestore(start: string, wins: seq<Swap>, end: string, i: nat, j: nat)
    requires Chain(start, wins, end) && i < j < |wins| && wins[i].expected == wins[j].expected
    ensures exists k :: i <= k < j && wins[k].newValue == wins[j].expected
    decreases |wins|
  {
    if j == 1 {
      assert i == 0 && wins[1..][0] == wins[1];
      assert wins[0].newValue == wins[1].expected;
    } else if i > 0 {
      SecondWinNeedsARestore(wins[0].newValue, wins[1..], end, i - 1, j - 1);
      var k :| i - 1 <= k < j - 1 && wins[1..][k].newValue == wins[1..][j - 1].expected;
      assert wins[k + 1].newValue == wins[j].expected;
    } else {
      LinkBefore(start, wins, end, j);
    }
  }

  lemma {:induction false} LinkBefore(start: string, wins: seq<Swap>, end: string, j: nat)
    requires Chain(start, wins, end) && 0 < j < |wins|
    ensures wins[j - 1].newValue == wins[j].expected
    decreases |wins|
  {
    if j == 1 {
      assert wins[1..][0] == wins[1];
    } else {
      LinkBefore(wins[0].newValue, wins[1..], end, j - 1);
      assert wins[1..][j - 1] == wins[j] && wins[1..][j - 2] == wins[j - 1];
    }
  }

  /** A race of swaps that all expect `expected` and never write it. */
  ghost predicate Race(ops: seq<Op>, key: string, expected: string) {
    forall i :: 0 <= i < |ops| && Touches(ops[i], key) ==>
      ops[i].CasOp? && ops[i].expected == expected != ops[i].newValue
  }

  lemma {:induction false} WinsComeFromTheRace(s: Store, ops: seq<Op>, key: string, expected: string)
    requires Race(ops, key, expected)
    ensures forall k :: 0 <= k < |Wins(s, ops, key)| ==>
              Wins(s, ops, key)[k].expected == expected != Wins(s, ops, key)[k].newValue
    decreases |ops|
  {
    if ops != [] { WinsComeFromTheRace(Apply(s, ops[0]), ops[1..], key, expected); }
  }

  lemma AtMostOneWinner(s: Store, ops: seq<Op>, key: string, expected: string)
    requires SwapOnly(s, ops, key) && Race(ops, key, expected)
    ensures |Wins(s, ops, key)| <= 1
    ensures ValueOf(s, key) != expected ==> Wins(s, ops, key) == []
  {
    var wins := Wins(s, ops, key);
    WinsComeFromTheRace(s, ops, key, expected);
    SwapsFormAChain(s, ops, key);
    if |wins| >= 2 { SecondWinNeedsARestore(ValueOf(s, key), wins, ValueOf(Final(s, ops), key), 0, 1); }
  }

  ghost predicate Entered(ops: seq<Op>, key: string) {
    exists i :: 0 <= i < |ops| && Touches(ops[i], key)
  }

  /** Such a race has one winner if the key starts at `expected` and anyone enters,
      and none otherwise. */
  lemma {:induction false} RaceHasOneWinner(s: Store, ops: seq<Op>, key: string, expected: string)
    requires SwapOnly(s, ops, key) && Race(ops, key, expected)
    ensures |Wins(s, ops, key)| == if ValueOf(s, key) == expected && Entered(ops, key) then 1 else 0
    decreases |ops|
  {
    AtMostOneWinner(s, ops, key, expected);
    if ops != [] {
      var s', rest := Apply(s, ops[0]), ops[1..];
      assert Entered(ops, key) <==> Touches(ops[0], key) || Entered(rest, key) by {
        assert forall i :: 0 <= i < |rest| ==> rest[i] == ops[i + 1];
        if Entered(rest, key) { var i :| 0 <= i < |rest| && Touches(rest[i], key); assert Touches(ops[i + 1], key); }
      }
      OneOperation(s, ops, key);
      WinsUnfold(s, ops, key);
      if !Touches(ops[0], key) {
        RaceHasOneWinner(s', rest, key, expected);
      }
    }
  }

  // ----- counters -----

  /** The numbers handed out by the increments of `name`, in order. */
  function Numbers(s: Store, ops: seq<Op>, name: string): seq<int>
    decreases |ops|
  {
    if ops == [] then []
    else (if ops[0].AddOp? && ops[0].name == name then [Count(Apply(s, ops[0]), name)] else [])
         + Numbers(Apply(s, ops[0]), ops[1..], name)
  }

  function Steps(ops: seq<Op>, name: string): seq<int>
    decreases |ops|
  {
    if ops == [] then []
    else (if ops[0].AddOp? && ops[0].name == name then [ops[0].step] else []) + Steps(ops[1..], name)
  }

  function Sum(steps: seq<int>): int {
    if steps == [] then 0 else steps[0] + Sum(steps[1..])
  }

  /** The running totals of `steps` from `start`. */
  function Totals(start: int, steps: seq<int>): seq<int>
    decreases |steps|
  {
    if steps == [] then [] else [start + steps[0]] + Totals(start + steps[0], steps[1..])
  }

  /** No increment is lost: the numbers handed out are the running totals of the
      steps, and the counter ends at the start plus all of them. */
  lemma {:induction false} IncrementsAddUp(s: Store, ops: seq<Op>, name: string)
    ensures Numbers(s, ops, name) == Totals(Count(s, name), Steps(ops, name))
    ensures Count(Final(s, ops), name) == Count(s, name) + Sum(Steps(ops, name))
    decreases |ops|
  {
    if ops != [] {
      var s', rest := Apply(s, ops[0]), ops[1..];
      IncrementsAddUp(s', rest, name);
      if ops[0].AddOp? && ops[0].name == name {
        assert Steps(ops, name)[1..] == Steps(rest, name);
      } else {
        assert Steps(ops, name) == Steps(rest, name) && Numbers(s, ops, name) == Numbers(s', rest, name);
      }
    }
  }

  lemma {:induction false} TotalsAre(start: int, steps: seq<int>, k: nat)
    requires k < |steps|
    ensures |Totals(start, steps)| == |steps|
    ensures Totals(start, steps)[k] == start + Sum(steps[..k + 1])
    decreases |steps|
  {
    assert steps[..k + 1][0] == steps[0] && steps[..k + 1][1..] == steps[1..][..k];
    TotalsLength(start, steps);
    if k > 0 { TotalsAre(start + steps[0], steps[1..], k - 1); }
  }

  lemma {:induction false} TotalsLength(start: int, steps: seq<int>)
    ensures |Totals(start, steps)| == |steps|
    decreases |steps|
  {
    if steps != [] { TotalsLength(start + steps[0], steps[1..]); }
  }

  lemma {:induction false} SumGrows(steps: seq<int>, i: nat, j: nat)
    requires i < j <= |steps| && forall k :: 0 <= k < |steps| ==> steps[k] > 0
    ensures Sum(steps[..i]) < Sum(steps[..j])
    decreases i
  {
    if i == 0 {
      SumPositive(steps[..j]);
    } else {
      SumGrows(steps[1..], i - 1, j - 1);
      assert steps[..i][1..] == steps[1..][..i - 1] && steps[..j][1..] == steps[1..][..j - 1];
    }
  }

  lemma {:induction false} SumPositive(steps: seq<int>)
    requires steps != [] && forall k :: 0 <= k < |steps| ==> steps[k] > 0
    ensures Sum(steps) > 0
  {
    if |steps| > 1 { SumPositive(steps[1..]); }
  }

  /** Positive increments hand out numbers that are all different, each larger than the last. */
  lemma NumbersAreUnique(s: Store, ops: seq<Op>, name: string, i: nat, j: nat)
    requires forall k :: 0 <= k < |ops| && ops[k].AddOp? && ops[k].name == name ==> ops[k].step > 0
    requires i < j < |Numbers(s, ops, name)|
    ensures Numbers(s, ops, name)[i] < Numbers(s, ops, name)[j]
  {
    IncrementsAddUp(s, ops, name);
    StepsPositive(ops, name);
    TotalsLength(Count(s, name), Steps(ops, name));
    TotalsAre(Count(s, name), Steps(ops, name), i);
    TotalsAre(Count(s, name), Steps(ops, name), j);
    SumGrows(Steps(ops, name), i + 1, j + 1);
  }

  lemma {:induction false} StepsPositive(ops: seq<Op>, name: string)
    requires forall k :: 0 <= k < |ops| && ops[k].AddOp? && ops[k].name == name ==> ops[k].step > 0
    ensures forall k :: 0 <= k < |Steps(ops, name)| ==> Steps(ops, name)[k] > 0
    decreases |ops|
  {
    if ops != [] { StepsPositive(ops[1..], name); }
  }
}
