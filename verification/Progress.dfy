// No deadlock and no leaked lock: a transaction locks one row and waits for none afterwards.

module Progress {
  import opened Store
  import opened Serializability

  // The number of steps an operation has left at most.
  function StepsLeft(k: Client): nat {
    match k.phase
    case Pending => if k.req.UpdateReq? then 5 else 1
    case Loaded(_) => 4
    case Mutated(_, _) => 3
    case Saved(_, _, _) => 2
    case Missed => 1
    case Replied(_) => 0
    case Failed => 0
  }

  function Work(ks: seq<Client>): nat {
    if ks == [] then 0 else StepsLeft(ks[0]) + Work(ks[1..])
  }

  // No operation takes more than five steps.
  lemma {:induction false} WorkBound(ks: seq<Client>)
    ensures Work(ks) <= 5 * |ks|
  {
    if ks != [] { WorkBound(ks[1..]); }
  }

  ghost predicate AllFinished(s: State) {
    forall c :: 0 <= c < |s.clients| ==> Finished(s.clients[c].phase)
  }

  lemma {:induction false} WorkUpdate(ks: seq<Client>, c: nat, k: Client)
    requires c < |ks|
    ensures Work(ks[c := k]) == Work(ks) - StepsLeft(ks[c]) + StepsLeft(k)
  {
    if c == 0 {
      assert ks[c := k][1..] == ks[1..];
    } else {
      assert ks[c := k][1..] == ks[1..][c - 1 := k];
      WorkUpdate(ks[1..], c - 1, k);
    }
  }

  lemma {:induction false} WorkLeft(ks: seq<Client>, c: nat)
    requires c < |ks| && !Finished(ks[c].phase)
    ensures Work(ks) > 0
  {
    if c > 0 { WorkLeft(ks[1..], c - 1); }
  }

  // Every step of an issued operation, success or failure, uses up work, in both variants.
  lemma StepLowersWork(locking: bool, s: State, e: Event)
    requires Enabled(s, e) && !e.Begin?
    ensures |Step(locking, s, e).clients| == |s.clients|
    ensures Work(Step(locking, s, e).clients) < Work(s.clients)
  {
    var s' := Step(locking, s, e);
    WorkUpdate(s.clients, e.c, s'.clients[e.c]);
    assert s'.clients == s.clients[e.c := s'.clients[e.c]];
  }

  // The next step of the operation itself, when nothing goes wrong.
  function NextEvent(k: Client, c: nat): Event
    requires !Finished(k.phase)
  {
    match k.phase
    case Pending => if k.req.UpdateReq? then Load(c) else Exec(c, 0, 0)
    case Loaded(_) => Mutate(c)
    case Mutated(_, _) => Save(c, 0)
    case Saved(_, _, _) => Commit(c)
    case Missed => Rollback(c)
  }

  // Who has to move for c to move: c itself, or the holder of the row it waits for. A holder
  // never waits, so there is no cycle.
  function Mover(s: State, c: nat): nat
    requires c < |s.clients|
  {
    var k := s.clients[c];
    if k.phase.Pending? && Blocked(s, k.req) then s.locks[Target(k.req).value] else c
  }

  // Deadlock freedom: as long as some operation is unfinished, an operation can take its next step.
  lemma NoDeadlock(s: State, c: nat)
    requires Inv(s) && c < |s.clients| && !Finished(s.clients[c].phase)
    ensures var m := Mover(s, c);
      m < |s.clients| && !Finished(s.clients[m].phase) && Enabled(s, NextEvent(s.clients[m], m))
    ensures Mover(s, c) != c ==> InTransaction(s.clients[Mover(s, c)].phase)
  {
    assert MemoryOk(s.clients[c]);
    if s.clients[c].phase.Pending? && Blocked(s, s.clients[c].req) {
      assert LockOk(s, Target(s.clients[c].req).value);
    }
  }

  // A waiting operation holds no lock.
  lemma WaitersHoldNothing(s: State, c: nat, id: nat)
    requires Inv(s) && c < |s.clients| && s.clients[c].phase.Pending?
    ensures id in s.locks ==> s.locks[id] != c
  {
    if id in s.locks { assert LockOk(s, id); }
  }

  lemma LocksFreeAtTheEnd(s: State)
    requires Inv(s)
    ensures AllFinished(s) ==> s.locks == map[]
  {
    if s.locks != map[] {
      var id :| id in s.locks;
      assert LockOk(s, id);
    }
  }

  // The number of steps a schedule takes, not counting attempts that had to wait.
  function Taken(locking: bool, s: State, es: seq<Event>): nat
    decreases |es|
  {
    if es == [] then 0
    else (if Enabled(s, es[0]) then 1 else 0) + Taken(locking, Step(locking, s, es[0]), es[1..])
  }

  // From every state that can arise there is a way to finish all issued operations without any of
  // them failing, within the work that is left; then no row is locked.
  lemma {:induction false} CanDrain(s: State) returns (es: seq<Event>)
    requires Inv(s)
    ensures |es| <= Work(s.clients) <= 5 * |s.clients| && Taken(true, s, es) == |es|
    ensures forall i :: 0 <= i < |es| ==> !es[i].Begin? && !es[i].Fail?
    ensures var s' := Run(true, s, es);
      AllFinished(s') && s'.locks == map[] && |s'.clients| == |s.clients|
    decreases Work(s.clients)
  {
    WorkBound(s.clients);
    if AllFinished(s) {
      LocksFreeAtTheEnd(s);
      return [];
    }
    var c: nat :| c < |s.clients| && !Finished(s.clients[c].phase);
    NoDeadlock(s, c);
    var e := NextEvent(s.clients[Mover(s, c)], Mover(s, c));
    var s1 := Step(true, s, e);
    StepLowersWork(true, s, e);
    StepKeepsInv(s, e);
    var rest := CanDrain(s1);
    es := [e] + rest;
    assert es[1..] == rest;
  }

  // And there is no way to go on forever: once no new operation is issued, every schedule, fair or
  // not, takes at most as many steps as there was work.
  lemma {:induction false} EveryScheduleEnds(locking: bool, s: State, es: seq<Event>)
    requires forall i :: 0 <= i < |es| ==> !es[i].Begin?
    ensures Taken(locking, s, es) + Work(Run(locking, s, es).clients) <= Work(s.clients)
    decreases |es|
  {
    if es != [] {
      if Enabled(s, es[0]) { StepLowersWork(locking, s, es[0]); }
      EveryScheduleEnds(locking, Step(locking, s, es[0]), es[1..]);
    }
  }
}
