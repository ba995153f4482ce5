/** The cap under real concurrency: only `pumpQueue` takes a lock, so native callbacks, `pause`, `resume`, `enqueue` and
    `cancel` change statuses and the list between any two of its steps
    (DownloadQueueManager.java:238-262, 319-349, 472-510). */
module QueueRaces {
  import opened Bytes
  import opened DownloadQueue

  /** Where the one thread inside `pumpQueue` stands; each loop runs over its own snapshot of the list.
      `Committed` lies between seeing QUEUED and writing DOWNLOADING. */
  datatype Pump =
    | Off
    | Counting(rest: seq<int>, n: nat)
    | Starting(rest: seq<int>, n: nat)
    | Committed(id: int, rest: seq<int>, n: nat)

  /** Statuses of all tasks ever made, the ids now listed, in order. */
  datatype State = State(status: map<int, Status>, listed: seq<int>, pump: Pump)

  datatype Step =
    | Write(id: int, s: Status)
    | Insert(ids: seq<int>, s: Status)
    | Drop(id: int)
    | Enter
    | PumpStep

  function StatusOf(s: State, id: int): Status {
    if id in s.status then s.status[id] else PAUSED
  }

  function Set(s: State, id: int, to: Status): State { s.(status := s.status[id := to]) }

  function Without(ids: seq<int>, id: int): seq<int> {
    if ids == [] then [] else if ids[0] == id then Without(ids[1..], id) else [ids[0]] + Without(ids[1..], id)
  }

  function PumpOnce(s: State, cap: nat): State {
    match s.pump
    case Off => s
    case Counting(rest, n) =>
      if rest == [] then s.(pump := if n >= cap then Off else Starting(s.listed, n))
      else s.(pump := Counting(rest[1..], if StatusOf(s, rest[0]) == DOWNLOADING then n + 1 else n))
    case Starting(rest, n) =>
      if rest == [] then s.(pump := Off)
      else if StatusOf(s, rest[0]) == QUEUED then s.(pump := Committed(rest[0], rest[1..], n))
      else s.(pump := Starting(rest[1..], n))
    case Committed(id, rest, n) => Set(s, id, DOWNLOADING).(pump := if n + 1 >= cap then Off else Starting(rest, n + 1))
  }

  /** No other thread ever writes DOWNLOADING, and tasks enter the list QUEUED or PAUSED. */
  ghost predicate Next(s: State, e: Step, s': State, cap: nat) {
    match e
    case Write(id, to) => to != DOWNLOADING && s' == Set(s, id, to)
    case Insert(ids, to) =>
      && (to == QUEUED || to == PAUSED) && (forall id :: id in ids ==> StatusOf(s, id) != DOWNLOADING)
      && s'.listed == ids + s.listed && s'.pump == s.pump
      && (forall id :: StatusOf(s', id) == if id in ids then to else StatusOf(s, id))
    case Drop(id) => s' == s.(listed := Without(s.listed, id))
    case Enter => s.pump == Off && s' == s.(pump := Counting(s.listed, 0))
    case PumpStep => s' == PumpOnce(s, cap)
  }

  function Ids(ids: seq<int>): set<int> { set id | id in ids }

  /** The listed tasks that are DOWNLOADING. */
  function Running(s: State): set<int> { set id | id in s.listed && StatusOf(s, id) == DOWNLOADING }

  /** What the pump has counted, or started, covers every running task it will not look at any more. */
  ghost predicate Inv(s: State, cap: nat) {
    && |Running(s)| <= cap
    && match s.pump
      case Off => true
      case Counting(rest, n) => |Running(s) - Ids(rest)| <= n
      case Starting(_, n) => |Running(s)| <= n < cap
      case Committed(_, _, n) => |Running(s)| <= n < cap
  }

  lemma {:induction false} WithoutOnly(ids: seq<int>, id: int)
    ensures forall x :: x in Without(ids, id) ==> x in ids
  {
    if ids != [] {
      WithoutOnly(ids[1..], id);
    }
  }

  /** Any step that starts nothing and leaves the pump alone. */
  lemma {:induction false} ShrinkInv(s: State, s': State, cap: nat)
    requires Inv(s, cap) && s'.pump == s.pump && Running(s') <= Running(s)
    ensures Inv(s', cap)
  {
    SubsetSize(Running(s'), Running(s));
    if s.pump.Counting? {
      SubsetSize(Running(s') - Ids(s.pump.rest), Running(s) - Ids(s.pump.rest));
    }
  }

  lemma {:induction false} CountInv(s: State, cap: nat)
    requires Inv(s, cap) && s.pump.Counting? && s.pump.rest != []
    ensures Inv(PumpOnce(s, cap), cap)
  {
    var s', id, rest := PumpOnce(s, cap), s.pump.rest[0], s.pump.rest;
    assert Running(s') == Running(s);
    assert Ids(rest) == Ids(rest[1..]) + {id};
    var seen := Running(s) - Ids(rest);
    if StatusOf(s, id) == DOWNLOADING {
      SubsetSize(Running(s) - Ids(rest[1..]), seen + {id});
    } else {
      SubsetSize(Running(s) - Ids(rest[1..]), seen);
    }
  }

  lemma {:induction false} CommitInv(s: State, cap: nat)
    requires Inv(s, cap) && s.pump.Committed?
    ensures Inv(PumpOnce(s, cap), cap)
  {
    SubsetSize(Running(PumpOnce(s, cap)), Running(s) + {s.pump.id});
  }

  /** What other threads do never adds to the running tasks. */
  lemma {:induction false} OthersStartNothing(s: State, e: Step, s': State, cap: nat)
    requires Next(s, e, s', cap) && (e.Write? || e.Insert? || e.Drop?)
    ensures Running(s') <= Running(s) && s'.pump == s.pump
  {
    if e.Drop? {
      WithoutOnly(s.listed, e.id);
    }
    forall id | id in Running(s') ensures id in Running(s) {
      assert StatusOf(s', id) == DOWNLOADING;
    }
  }

  /** The pump moving on without starting anything. */
  lemma {:induction false} QuietInv(s: State, p: Pump, cap: nat)
    requires Inv(s, cap)
    requires p == Off || p == Counting(s.listed, 0)
      || (p.Starting? && |Running(s)| <= p.n < cap) || (p.Committed? && |Running(s)| <= p.n < cap)
    ensures Inv(s.(pump := p), cap)
  {
    assert Running(s.(pump := p)) == Running(s);
    assert Running(s) - Ids(s.listed) == {};
  }

  lemma {:induction false} NextInv(s: State, e: Step, s': State, cap: nat)
    requires Inv(s, cap) && Next(s, e, s', cap)
    ensures Inv(s', cap)
  {
    hide Running, Ids;
    if e.Write? || e.Insert? || e.Drop? {
      OthersStartNothing(s, e, s', cap);
      ShrinkInv(s, s', cap);
    } else if e.Enter? {
      QuietInv(s, Counting(s.listed, 0), cap);
    } else if s.pump.Counting? {
      if s.pump.rest != [] {
        CountInv(s, cap);
      } else {
        NothingLeft(s);
        QuietInv(s, s'.pump, cap);
      }
    } else if s.pump.Starting? {
      QuietInv(s, s'.pump, cap);
    } else if s.pump.Committed? {
      CommitInv(s, cap);
    }
  }

  lemma {:induction false} NothingLeft(s: State)
    ensures Running(s) - Ids([]) == Running(s)
  {
  }

  /** Whatever interleaves with the pump, the listed tasks that are DOWNLOADING are never more than the cap. */
  lemma {:induction false} CapHolds(states: seq<State>, steps: seq<Step>, cap: nat, k: nat)
    requires |states| == |steps| + 1 && k < |states|
    requires states[0].pump == Off && Running(states[0]) == {}
    requires forall i :: 0 <= i < |steps| ==> Next(states[i], steps[i], states[i + 1], cap)
    ensures |Running(states[k])| <= cap && Inv(states[k], cap)
  {
    if k > 0 {
      CapHolds(states, steps, cap, k - 1);
      assert Next(states[k - 1], steps[k - 1], states[k], cap);
      hide Next, Inv;
      NextInv(states[k - 1], steps[k - 1], states[k], cap);
    }
    hide Next;
  }
}
