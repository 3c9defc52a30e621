// The variant without row locks on a database with one lock on the whole file, as sqlite has it: a
// transaction that has read may write only if the database is still as it read it and nobody else is
// writing, and while one transaction has written and not ended, nobody else writes.

module FileLock {
  import opened Patch
  import opened Store
  import opened Serializability
  import opened History
  import opened Unlocked

  // snaps[c] is the table as client c's transaction read it.
  datatype Guarded = Guarded(s: State, snaps: map<nat, Table>)

  predicate SomeoneElseWrites(s: State, c: nat) {
    exists d :: 0 <= d < |s.clients| && d != c && s.clients[d].phase.Saved?
  }

  // Refused as busy: the statement has no effect, and its client may try again or fail. A table that
  // has changed and changed back is let through here, which sqlite would not do.
  predicate Refused(g: Guarded, e: Event) {
    match e
    case Save(c, _) => c !in g.snaps || g.snaps[c] != g.s.table || SomeoneElseWrites(g.s, c)
    case Exec(c, _, _) => c < |g.s.clients| && !g.s.clients[c].req.GetReq? && SomeoneElseWrites(g.s, c)
    case _ => false
  }

  function GuardedStep(g: Guarded, e: Event): Guarded {
    if Refused(g, e) then g
    else Guarded(Step(false, g.s, e), if e.Load? && Enabled(g.s, e) then g.snaps[e.c := g.s.table] else g.snaps)
  }

  function GuardedRun(g: Guarded, es: seq<Event>): Guarded {
    if es == [] then g else GuardedStep(GuardedRun(g, es[..|es| - 1]), es[|es| - 1])
  }

  // The events that were let through.
  function Granted(g: Guarded, es: seq<Event>): seq<Event> {
    if es == [] then []
    else
      var front, e := es[..|es| - 1], es[|es| - 1];
      Granted(g, front) + if Refused(GuardedRun(g, front), e) then [] else [e]
  }

  lemma RunSnoc(s: State, es: seq<Event>, e: Event)
    ensures Run(false, s, es + [e]) == Step(false, Run(false, s, es), e)
  {
    RunAppend(false, s, es, [e]);
    RunOne(false, Run(false, s, es), e);
  }

  // A guarded run is a run without row locks, of the events that were let through.
  lemma {:induction false} GuardedIsUnlocked(g: Guarded, es: seq<Event>)
    ensures GuardedRun(g, es).s == Run(false, g.s, Granted(g, es))
  {
    if es != [] {
      var front, e := es[..|es| - 1], es[|es| - 1];
      GuardedIsUnlocked(g, front);
      if Refused(GuardedRun(g, front), e) {
        assert Granted(g, es) == Granted(g, front);
      } else {
        RunSnoc(g.s, Granted(g, front), e);
      }
    }
  }

  // What a transaction read is in its snapshot, and while it is writing the table is that snapshot.
  ghost predicate ReadOk(g: Guarded, c: nat)
    requires c < |g.s.clients|
  {
    var k := g.s.clients[c];
    && (InTransaction(k.phase) && k.req.UpdateReq? ==>
          c in g.snaps && LiveIn(g.snaps[c].rows, k.req.id) && g.snaps[c].rows[k.req.id] == k.phase.seen)
    && (k.phase.Saved? ==> c in g.snaps && g.snaps[c] == g.s.table)
  }

  ghost predicate OneWriter(s: State) {
    forall c, d :: 0 <= c < d < |s.clients| ==> !(s.clients[c].phase.Saved? && s.clients[d].phase.Saved?)
  }

  ghost predicate FileInv(g: Guarded) {
    && Sound(g.s) && OneWriter(g.s)
    && (forall c :: 0 <= c < |g.s.clients| ==> ReadOk(g, c))
  }

  lemma StepKeepsOneWriter(g: Guarded, e: Event)
    requires FileInv(g) && !Refused(g, e) && Enabled(g.s, e)
    ensures OneWriter(GuardedStep(g, e).s)
  {
  }

  lemma StepKeepsRead(g: Guarded, e: Event, c: nat)
    requires FileInv(g) && !Refused(g, e) && Enabled(g.s, e) && c < |GuardedStep(g, e).s.clients|
    ensures ReadOk(GuardedStep(g, e), c)
  {
    if c < |g.s.clients| { assert ReadOk(g, c) && MemoryOk(g.s.clients[c]); }
  }

  lemma StepKeepsFileInv(g: Guarded, e: Event)
    requires FileInv(g)
    ensures FileInv(GuardedStep(g, e))
  {
    if !Refused(g, e) && Enabled(g.s, e) {
      StepKeepsSound(false, g.s, e);
      StepKeepsOneWriter(g, e);
      forall c: nat | c < |GuardedStep(g, e).s.clients| ensures ReadOk(GuardedStep(g, e), c) { StepKeepsRead(g, e, c); }
    }
  }

  lemma CommitIsClean(g: Guarded, c: nat)
    requires FileInv(g) && Enabled(g.s, Commit(c))
    ensures Clean(g.s, c)
  {
    assert ReadOk(g, c);
  }

  lemma AllowedSnoc(g: Guarantee, s: State, es: seq<Event>, e: Event)
    requires AllAllowed(g, false, s, es)
    requires e.Commit? && Enabled(Run(false, s, es), e) ==> Allows(g, Run(false, s, es), e.c)
    ensures AllAllowed(g, false, s, es + [e])
  {
    var all := es + [e];
    forall n | 0 <= n < |all| && all[n].Commit? && Enabled(AfterEvents(false, s, all, n), all[n])
      ensures Allows(g, AfterEvents(false, s, all, n), all[n].c)
    {
      assert all[..n] == es[..n];
      if n < |es| {
        assert AfterEvents(false, s, all, n) == AfterEvents(false, s, es, n);
        assert all[n] == es[n];
      } else {
        assert es[..n] == es;
      }
    }
  }

  lemma {:induction false} GuardedCommitsAreClean(tb: Table, es: seq<Event>, g: Guarded)
    requires WellFormed(tb) && g == Guarded(Init(tb), map[])
    ensures FileInv(GuardedRun(g, es)) && AllAllowed(InCommitOrder, false, g.s, Granted(g, es))
  {
    if es == [] {
      InitInv(tb);
    } else {
      var front, e := es[..|es| - 1], es[|es| - 1];
      GuardedCommitsAreClean(tb, front, g);
      StepKeepsFileInv(GuardedRun(g, front), e);
      GuardedIsUnlocked(g, front);
      if !Refused(GuardedRun(g, front), e) {
        if e.Commit? && Enabled(GuardedRun(g, front).s, e) { CommitIsClean(GuardedRun(g, front), e.c); }
        AllowedSnoc(InCommitOrder, g.s, Granted(g, front), e);
      } else {
        assert Granted(g, es) == Granted(g, front);
      }
    }
  }

  // So on a database file that nobody else may write while one transaction does, and that refuses
  // a write based on an outdated read, the branch without row locks is safe as well: from any table,
  // in every run, it looks serial to every client, loses no field and revives no task.
  lemma FileLockIsSafe(tb: Table, es: seq<Event>, s: State)
    requires WellFormed(tb) && s == GuardedRun(Guarded(Init(tb), map[]), es).s
    ensures AsIfSerial(tb, s) && AllFieldsKept(tb, s.log, s.table) && AllLiveAsLogged(tb, s.log, s.table)
  {
    var g := Guarded(Init(tb), map[]);
    GuardedCommitsAreClean(tb, es, g);
    GuardedIsUnlocked(g, es);
    CleanRunIsSafe(false, tb, Granted(g, es), s);
  }

  // ----- and it gets work done -----

  lemma GuardedSnoc(g: Guarded, es: seq<Event>, e: Event)
    ensures GuardedRun(g, es + [e]) == GuardedStep(GuardedRun(g, es), e)
  {
    assert (es + [e])[..|es|] == es;
  }

  // An update that nobody disturbs is let through to the end.
  lemma LoneUpdateSucceeds(tb: Table, id: nat, patch: UpdateRequest, now: Time)
    requires WellFormed(tb) && LiveIn(tb.rows, id)
    ensures var t := ApplyPatch(patch, tb.rows[id]).(updatedAt := now);
      var es := [Begin(UpdateReq(id, patch)), Load(0), Mutate(0), Save(0, now), Commit(0)];
      var s := GuardedRun(Guarded(Init(tb), map[]), es).s;
      s.table == tb.(rows := tb.rows[id := t]) && s.clients == [Client(UpdateReq(id, patch), Replied(Row(t)))]
  {
    var g, req, row := Guarded(Init(tb), map[]), UpdateReq(id, patch), tb.rows[id];
    var t := ApplyPatch(patch, row).(updatedAt := now);
    GuardedSnoc(g, [], Begin(req));
    assert [] + [Begin(req)] == [Begin(req)];
    GuardedSnoc(g, [Begin(req)], Load(0));
    assert [Begin(req)] + [Load(0)] == [Begin(req), Load(0)];
    GuardedSnoc(g, [Begin(req), Load(0)], Mutate(0));
    assert [Begin(req), Load(0)] + [Mutate(0)] == [Begin(req), Load(0), Mutate(0)];
    GuardedSnoc(g, [Begin(req), Load(0), Mutate(0)], Save(0, now));
    assert [Begin(req), Load(0), Mutate(0)] + [Save(0, now)] == [Begin(req), Load(0), Mutate(0), Save(0, now)];
    var saved := GuardedRun(g, [Begin(req), Load(0), Mutate(0), Save(0, now)]);
    assert saved.s.table == tb && saved.s.clients == [Client(req, Saved(row, t, now))];
    GuardedSnoc(g, [Begin(req), Load(0), Mutate(0), Save(0, now)], Commit(0));
    assert [Begin(req), Load(0), Mutate(0), Save(0, now)] + [Commit(0)] ==
      [Begin(req), Load(0), Mutate(0), Save(0, now), Commit(0)];
  }
}
