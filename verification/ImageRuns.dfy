/** The converse of linearizability: every sequence of operations on the image, executed one at a time, is
    what some run of the machine does (crates/pnio/src/rt/image.rs). */
module ImageRuns {
  import opened Wire
  import opened Image

  /** One enabled step. */
  lemma Stepped(run: Run, lab: Label)
    requires StateOf(run).Some? && Enabled(StateOf(run).value, lab)
    ensures StateOf(Then(run, lab)) == Some(Next(StateOf(run).value, lab))
  {
    hide Enabled, Next;
  }

  lemma CopyKeepsExtent(m: IoImage, th: Thread)
    requires th.k < Extent(m, th.op)
    requires Keyed(th.op) ==> !Overruns(Lookup(m.cells, th.op).value, Buffer(m, th.op))
    ensures Extent(CopyMem(m, th), th.op) == Extent(m, th.op)
  {
    hide Lookup;
  }

  /** The lock an operation waits for is not its own. */
  lemma NextNotHeld(th: Thread)
    requires th.held < Needed(th.op)
    ensures !Holds(th, NextLock(th.op, th.held))
  {
  }

  /** Nobody else holds anything. */
  lemma AloneFree(s: State, t: nat)
    requires LocksOk(s) && s.threads.Keys == {t} && s.threads[t].held < Needed(s.threads[t].op)
    ensures NextLock(s.threads[t].op, s.threads[t].held) !in s.owner
  {
    assert forall l :: l in s.owner ==> s.owner[l] in s.threads.Keys;
    NextNotHeld(s.threads[t]);
  }

  /** An operation alone takes its next lock, fails its lookup, copies or finishes. */
  lemma AloneSteps(s: State, t: nat)
    requires Inv(s) && s.threads.Keys == {t}
    ensures Enabled(s, Acquire(t)) || Enabled(s, LookupFails(t)) || Enabled(s, Copy(t)) || Enabled(s, Finish(t))
  {
    hide Sequential, Replay, Inside, ThreadOk, Same, Seen, LocksOk, Lookup, Extent, Needed, NextLock;
    RunsOrWaits(s, t);
    NeverOverruns(s, t);
    if s.threads[t].held < Needed(s.threads[t].op) { AloneFree(s, t); }
    NeedsOne(s.threads[t].op);
  }

  lemma NeedsOne(op: Op)
    ensures Needed(op) > 0
  {
  }

  function Left(s: State, t: nat): (int, int)
    requires t in s.threads
  {
    var th := s.threads[t];
    (Needed(th.op) - th.held, Extent(s.mem, th.op) - th.k)
  }

  predicate Quiet(s: State) { s.threads == map[] }

  /** An operation alone ends, without contention. */
  lemma {:induction false} Alone(run: Run, t: nat) returns (run': Run)
    requires StateOf(run).Some? && StateOf(run).value.threads.Keys == {t}
    ensures var s := StateOf(run).value;
      StateOf(run').Some?
      && var s' := StateOf(run').value;
         && Quiet(s') && |s'.history| == |s.history| + 1 && s'.history[..|s.history|] == s.history
         && s'.history[|s.history|].op == s.threads[t].op && !s'.history[|s.history|].res.Contended?
    decreases Max(Left(StateOf(run).value, t).0, 0), Max(Left(StateOf(run).value, t).1, 0)
  {
    hide StateOf, Inv, Lookup, Extent, Needed, NextLock, Buffer;
    RunInv(run);
    var s := StateOf(run).value;
    AloneSteps(s, t);
    if Enabled(s, LookupFails(t)) {
      Stepped(run, LookupFails(t));
      run' := Then(run, LookupFails(t));
    } else if Enabled(s, Finish(t)) {
      Stepped(run, Finish(t));
      run' := Then(run, Finish(t));
    } else if Enabled(s, Acquire(t)) {
      Stepped(run, Acquire(t));
      run' := Alone(Then(run, Acquire(t)), t);
    } else {
      Stepped(run, Copy(t));
      CopyKeepsExtent(s.mem, s.threads[t]);
      run' := Alone(Then(run, Copy(t)), t);
    }
  }

  /** Every layout put in place keeps its cells inside its buffers. */
  predicate Allowed(op: Op) { op.Rebuild? ==> TableInside(op.layout) }

  predicate OpsOf(h: seq<Finished>, ops: seq<Op>) {
    |h| == |ops| && forall i :: 0 <= i < |h| ==> h[i].op == ops[i] && !h[i].res.Contended?
  }

  /** For every sequence of operations there is a run that finishes exactly these, in this order, with the
      results they have one at a time, and leaves nothing in progress. */
  lemma {:induction false} Realizable(ops: seq<Op>) returns (run: Run)
    requires forall op <- ops :: Allowed(op)
    ensures StateOf(run).Some?
    ensures var s := StateOf(run).value;
      Quiet(s) && OpsOf(s.history, ops) && Sequential(s.history) && s.mem == Replay(s.history)
    decreases |ops|
  {
    hide StateOf, Sequential, Replay, TableInside;
    if ops == [] {
      run := Init;
      Initially();
    } else {
      var init, op := ops[..|ops| - 1], ops[|ops| - 1];
      assert op in ops && forall x <- init :: x in ops;
      var before := Realizable(init);
      var s := StateOf(before).value;
      Stepped(before, Begin(0, op));
      var begun := Then(before, Begin(0, op));
      assert StateOf(begun).value.threads.Keys == {0};
      run := Alone(begun, 0);
      var h := StateOf(run).value.history;
      assert forall i :: 0 <= i < |init| ==> h[i] == h[..|init|][i];
    }
    Linearizable(run);
    QuiescentMemory(run);
  }

  lemma Initially()
    ensures StateOf(Init) == Some(START)
  {
  }
}
