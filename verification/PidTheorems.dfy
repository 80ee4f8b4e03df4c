/** What the PID protocol guarantees over every run, and what an outsider can spoil. */
module PidTheorems {
  import opened Options
  import opened PidProtocol

  ghost predicate Moves(w: World, step: Step, w': World) { CanStep(w, step) && w' == Next(w, step) }

  ghost predicate Execution(run: seq<World>, steps: seq<Step>) {
    && |run| == |steps| + 1 && run[0] == EMPTY
    && forall i :: 0 <= i < |steps| ==> Moves(run[i], steps[i], run[i + 1])
  }

  lemma {:induction false} Always(run: seq<World>, steps: seq<Step>, i: nat)
    requires Execution(run, steps) && i < |run|
    ensures Inv(run[i])
    decreases i
  {
    if i > 0 {
      Always(run, steps, i - 1);
      assert Moves(run[i - 1], steps[i - 1], run[i]);
      NextKeeps(run[i - 1], steps[i - 1]);
    }
  }

  predicate Owner(w: World, p: nat) { p < |w.processes| && w.processes[p].alive && w.processes[p].owns }

  /** However the processes interleave and whichever die, at most one live process owns the PID file. */
  lemma {:induction false} OneOwner(run: seq<World>, steps: seq<Step>, i: nat, p: nat, q: nat)
    requires Execution(run, steps) && i < |run| && Owner(run[i], p) && Owner(run[i], q)
    ensures p == q
  {
    Always(run, steps, i);
    assert ProcessOk(run[i], p) && ProcessOk(run[i], q);
  }

  /** The owner has both files locked, so nobody else gets past the locks. */
  lemma {:induction false} OwnerHoldsLocks(w: World, p: nat)
    requires Inv(w) && Owner(w, p)
    ensures var q := w.processes[p];
            && q.guard.Some? && q.held.Some? && w.guard == q.guard && q.guard != q.held
            && q.guard.value < |w.locks| && w.locks[q.guard.value] == Some(p)
            && q.held.value < |w.locks| && w.locks[q.held.value] == Some(p)
  {
    assert ProcessOk(w, p);
  }

  // ---------- the published number ----------

  predicate PublishedBy(w: World, p: nat) {
    && Sane(w) && p < |w.processes| && w.processes[p].alive && w.processes[p].pc.Published?
    && w.processes[p].held.Some? && w.processes[p].held.value < |w.content|
  }

  /** The step is not one the process takes itself. */
  predicate NotBy(step: Step, p: nat) { step.Acts? ==> step.who != p }

  lemma {:induction false} OthersLeaveAlone(w: World, step: Step, p: nat)
    requires CanStep(w, step) && p < |w.processes| && NotBy(step, p)
    ensures p < |Next(w, step).processes|
    ensures Next(w, step).processes[p] == w.processes[p].(since := Next(w, step).processes[p].since)
  {
    if step.Acts? { ActsAlone(w, step.who, step.act, p); }
  }

  lemma {:induction false} ActsAlone(w: World, who: nat, act: Act, p: nat)
    requires Can(w, who, act) && p < |w.processes| && p != who
    ensures p < |Act1(w, who, act).processes| && Act1(w, who, act).processes[p] == w.processes[p]
  {
  }

  /** From the moment a process has published until it releases, republishes or dies, whatever the others do,
      its file holds its number; the PID path leads to that file, to nothing, or elsewhere, as the last outsider left it. */
  lemma {:induction false} PublishedUntilItLeaves(run: seq<World>, steps: seq<Step>, i: nat, j: nat, p: nat)
    requires Execution(run, steps) && i <= j < |run| && PublishedBy(run[i], p)
    requires forall k :: i <= k < j ==> NotBy(steps[k], p)
    ensures PublishedBy(run[j], p) && run[j].processes[p].held == run[i].processes[p].held
    ensures var q := run[j].processes[p];
            && run[j].content[q.held.value] == Render(q.pid) && Parse(run[j].content[q.held.value]) == Some(q.pid)
            && Leads(run[j].path, q.held.value, q.since)
    decreases j
  {
    Always(run, steps, j);
    if i < j {
      PublishedUntilItLeaves(run, steps, i, j - 1, p);
      assert Moves(run[j - 1], steps[j - 1], run[j]);
      OthersLeaveAlone(run[j - 1], steps[j - 1], p);
    }
    assert ProcessOk(run[j], p);
    ParseRender(run[j].processes[p].pid);
  }

  // ---------- unlinking ----------

  /** The PID path changes hands only through an outsider, an owner's unlink, or the creation of a missing file
      by the process that has the coordination lock. */
  lemma {:induction false} PathChanges(w: World, step: Step)
    requires Inv(w) && CanStep(w, step) && Next(w, step).path != w.path
    ensures step.Outsider?
            || (step.Acts? && step.act.Unlink? && Owner(w, step.who) && Next(w, step).path.None?)
            || (step.Acts? && step.act.OpenPid? && w.path.None? && w.processes[step.who].guard.Some?)
  {
    if step.Acts? { assert ProcessOk(w, step.who); }
  }

  /** What the last outsider among some steps did to the PID path. */
  function LastTouch(steps: seq<Step>, i: nat, j: nat): (t: Touch)
    requires i <= j <= |steps|
    decreases j
  {
    if i == j then Untouched
    else if steps[j - 1].Outsider? then (if steps[j - 1].replacement.None? then Removed else Replaced)
    else LastTouch(steps, i, j - 1)
  }

  lemma {:induction false} SinceIsLastTouch(run: seq<World>, steps: seq<Step>, c: nat, u: nat, p: nat)
    requires Execution(run, steps) && c < u <= |steps| && steps[c] == Acts(p, Check(true))
    requires p < |run[c + 1].processes| && run[c + 1].processes[p].pc == Checked(true)
    requires forall k :: c < k < u ==> NotBy(steps[k], p)
    ensures p < |run[u].processes| && run[u].processes[p].pc == Checked(true) && run[u].processes[p].alive
    ensures run[u].processes[p].since == LastTouch(steps, c + 1, u)
    decreases u
  {
    assert Moves(run[u - 1], steps[u - 1], run[u]);
    if u > c + 1 {
      SinceIsLastTouch(run, steps, c, u - 1, p);
      OthersLeaveAlone(run[u - 1], steps[u - 1], p);
      if steps[u - 1].Acts? { ActsAlone(run[u - 1], steps[u - 1].who, steps[u - 1].act, p); }
    }
  }

  /** A release that found its own file at the PID path removes whatever is there when it unlinks. That is the file it holds
      if no outsider came in between, nothing if the last outsider had removed it, and somebody else's file if and only if
      the last outsider since the check put a replacement there. No other process holds the file that is removed. */
  lemma {:induction false} UnlinkRemovesHeld(run: seq<World>, steps: seq<Step>, c: nat, u: nat, p: nat)
    requires Execution(run, steps) && c < u < |steps| && steps[c] == Acts(p, Check(true)) && steps[u] == Acts(p, Unlink(true))
    requires p < |run[c + 1].processes| && run[c + 1].processes[p].pc == Checked(true)
    requires forall k :: c < k < u ==> NotBy(steps[k], p)
    ensures p < |run[u].processes| && run[u].processes[p].held.Some? && run[u + 1].path.None?
    ensures var held := run[u].processes[p].held;
            && (run[u].path == held <==> LastTouch(steps, c + 1, u) == Untouched)
            && (run[u].path.None? <==> LastTouch(steps, c + 1, u) == Removed)
            && (run[u].path.Some? && run[u].path != held <==> LastTouch(steps, c + 1, u) == Replaced)
            && forall r :: 0 <= r < |run[u].processes| && r != p && run[u].processes[r].held.Some? ==> run[u].processes[r].held != held
  {
    SinceIsLastTouch(run, steps, c, u, p);
    Always(run, steps, u);
    assert Moves(run[u], steps[u], run[u + 1]);
    assert ProcessOk(run[u], p);
    forall r | 0 <= r < |run[u].processes| && r != p && run[u].processes[r].held.Some?
      ensures run[u].processes[r].held != run[u].processes[p].held
    {
      assert ProcessOk(run[u], r);
    }
  }

  /** An outsider who replaces the file between the check and the unlink loses the replacement: the check
      alone does not protect it. */
  lemma {:induction false} UnlinkHitsReplacement(w: World, p: nat, text: string)
    requires Inv(w) && Can(w, p, Check(true)) && Owner(w, p) && w.path == w.processes[p].held
    ensures var w1 := Act1(w, p, Check(true));
            var w2 := Next(w1, Outsider(Some(text)));
            && Can(w2, p, Unlink(true)) && w2.path == Some(|w.content|) && w2.path != w2.processes[p].held
            && Act1(w2, p, Unlink(true)).path.None?
  {
    assert ProcessOk(w, p);
  }

  // ---------- an acquisition without interruption ----------

  predicate Free(w: World, at: Option<nat>)
    requires Sane(w)
  {
    at.Some? ==> at.value < |w.locks| && w.locks[at.value].None?
  }

  /** The number in the PID file, if there is a file and it holds one. */
  function Recorded(w: World): (n: Option<nat>) {
    if w.path.Some? && w.path.value < |w.content| then Parse(w.content[w.path.value]) else None
  }

  predicate At(w: World, p: nat) { p < |w.processes| && w.processes[p].alive }

  /** A process takes the given steps one after the other, uninterrupted. */
  ghost predicate Alone(run: seq<World>, p: nat, acts: seq<Act>) {
    && |run| == |acts| + 1 && forall i :: 0 <= i < |acts| ==> Moves(run[i], Acts(p, acts[i]), run[i + 1])
  }

  lemma {:induction false} AloneMore(run: seq<World>, p: nat, acts: seq<Act>, act: Act, w': World)
    requires Alone(run, p, acts) && Moves(run[|acts|], Acts(p, act), w')
    ensures Alone(run + [w'], p, acts + [act])
  {
    var run', acts' := run + [w'], acts + [act];
    forall i | 0 <= i < |acts'| ensures Moves(run'[i], Acts(p, acts'[i]), run'[i + 1]) {
      if i < |acts| { assert Moves(run[i], Acts(p, acts[i]), run[i + 1]); }
    }
  }

  /** Reaching the coordination lock, from an idle process. */
  lemma {:induction false} GuardStage(w: World, p: nat) returns (w1: World, w2: World, w3: World)
    requires Inv(w) && At(w, p) && w.processes[p].pc.Idle?
    ensures Moves(w, Acts(p, Begin(true)), w1) && Moves(w1, Acts(p, OpenGuard(true)), w2) && Moves(w2, Acts(p, LockGuard(true)), w3)
    ensures Inv(w3) && At(w3, p) && SameNumbers(w, w3) && Recorded(w3) == Recorded(w) && (Free(w3, w3.path) <==> Free(w, w.path))
    ensures if Free(w, w.guard) then w3.processes[p].pc.WantPid? else w3.processes[p].pc.Leaving?
  {
    w1, w2 := OpenStage(w, p);
    w3 := Act1(w2, p, LockGuard(true));
    NextKeeps(w2, Acts(p, LockGuard(true)));
  }

  lemma {:induction false} OpenStage(w: World, p: nat) returns (w1: World, w2: World)
    requires Inv(w) && At(w, p) && w.processes[p].pc.Idle?
    ensures Moves(w, Acts(p, Begin(true)), w1) && Moves(w1, Acts(p, OpenGuard(true)), w2) && Can(w2, p, LockGuard(true))
    ensures Inv(w2) && At(w2, p) && SameNumbers(w, w2) && w2.path == w.path && Recorded(w2) == Recorded(w)
    ensures (Free(w2, w2.path) <==> Free(w, w.path)) && (Free(w2, w2.guard) <==> Free(w, w.guard))
    ensures w2.guard == Some(w2.processes[p].pc.inode) && w2.path != w2.guard
  {
    assert ProcessOk(w, p);
    w1 := Act1(w, p, Begin(true));
    NextKeeps(w, Acts(p, Begin(true)));
    w2 := Act1(w1, p, OpenGuard(true));
    NextKeeps(w1, Acts(p, OpenGuard(true)));
  }

  /** From the coordination lock to the lock on the PID file. */
  lemma {:induction false} PidStage(w: World, p: nat) returns (w1: World, w2: World)
    requires Inv(w) && At(w, p) && w.processes[p].pc.WantPid?
    ensures Moves(w, Acts(p, OpenPid(true)), w1) && Moves(w1, Acts(p, LockPid(true)), w2)
    ensures Inv(w2) && At(w2, p) && SameNumbers(w, w2) && Recorded(w2) == Recorded(w)
    ensures if Free(w, w.path) then w2.processes[p].pc.Inspecting? && w2.path == w2.processes[p].held else w2.processes[p].pc.Leaving?
  {
    assert ProcessOk(w, p);
    w1 := Act1(w, p, OpenPid(true));
    NextKeeps(w, Acts(p, OpenPid(true)));
    assert ProcessOk(w1, p);
    w2 := Act1(w1, p, LockPid(true));
    NextKeeps(w1, Acts(p, LockPid(true)));
  }

  /** The same processes with the same numbers are alive. */
  ghost predicate SameNumbers(w: World, w': World) {
    && |w'.processes| == |w.processes|
    && forall r :: 0 <= r < |w.processes| ==>
         w'.processes[r].pid == w.processes[r].pid && w'.processes[r].alive == w.processes[r].alive
  }

  /** kill(pid, 0) finds every live process of the protocol. */
  ghost predicate Honest(w: World, live: bool) {
    forall r :: 0 <= r < |w.processes| && w.processes[r].alive && Recorded(w) == Some(w.processes[r].pid) ==> live
  }

  lemma {:induction false} InspectStage(w: World, p: nat, live: bool) returns (w': World)
    requires Inv(w) && At(w, p) && w.processes[p].pc.Inspecting? && w.path == w.processes[p].held && Honest(w, live)
    ensures Moves(w, Acts(p, Inspect(true, live, true)), w') && At(w', p)
    ensures if Recorded(w).Some? && live then w'.processes[p].pc.Leaving? else w'.processes[p].pc.Owning?
  {
    assert ProcessOk(w, p);
    w' := Act1(w, p, Inspect(true, live, true));
  }

  function AcquireProgram(live: bool): (acts: seq<Act>) {
    [Begin(true), OpenGuard(true), LockGuard(true), OpenPid(true), LockPid(true), Inspect(true, live, true)]
  }

  /** skyuv_pid_acquire by a process that is not interrupted and whose other system calls succeed gets the file
      exactly when neither lock is taken and the file does not name an existing process. In particular a file
      left behind by a dead owner is taken over once the kernel has closed its descriptors. */
  lemma {:induction false} AcquireAlone(w: World, p: nat, live: bool) returns (run: seq<World>, acts: seq<Act>)
    requires Inv(w) && At(w, p) && w.processes[p].pc.Idle? && Honest(w, live)
    ensures Alone(run, p, acts) && run[0] == w && acts <= AcquireProgram(live) && At(run[|acts|], p)
    ensures var q := run[|acts|].processes[p];
            && (q.pc.Owning? <==> Free(w, w.guard) && Free(w, w.path) && !(Recorded(w).Some? && live))
            && (q.pc.Owning? || q.pc.Leaving?)
  {
    var w1, w2, w3 := GuardStage(w, p);
    run, acts := [w, w1, w2, w3], [Begin(true), OpenGuard(true), LockGuard(true)];
    if Free(w, w.guard) { run, acts := AfterGuard(run, p, live); }
  }

  /** The rest of the program once the coordination lock is held. */
  lemma {:induction false} AfterGuard(start: seq<World>, p: nat, live: bool) returns (run: seq<World>, acts: seq<Act>)
    requires |start| == 4 && Alone(start, p, AcquireProgram(live)[..3])
    requires Inv(start[3]) && At(start[3], p) && start[3].processes[p].pc.WantPid? && Honest(start[3], live)
    ensures Alone(run, p, acts) && run[0] == start[0] && acts <= AcquireProgram(live) && At(run[|acts|], p)
    ensures var q := run[|acts|].processes[p];
            if Free(start[3], start[3].path) && !(Recorded(start[3]).Some? && live) then q.pc.Owning? else q.pc.Leaving?
  {
    var w4, w5 := PidStage(start[3], p);
    AloneMore(start, p, AcquireProgram(live)[..3], OpenPid(true), w4);
    AloneMore(start + [w4], p, AcquireProgram(live)[..3] + [OpenPid(true)], LockPid(true), w5);
    run, acts := start + [w4] + [w5], AcquireProgram(live)[..3] + [OpenPid(true)] + [LockPid(true)];
    if Free(start[3], start[3].path) {
      var w6 := InspectStage(w5, p, live);
      AloneMore(run, p, acts, Inspect(true, live, true), w6);
      run, acts := run + [w6], acts + [Inspect(true, live, true)];
    }
  }

  // ---------- the write loop ----------

  /** What write says: a number of bytes, an interruption, or an error. */
  datatype Answer = Wrote(count: nat) | Interrupted | Failed

  function Total(answers: seq<Answer>): (n: nat) {
    if answers == [] then 0 else Total(answers[..|answers| - 1]) + (var a := answers[|answers| - 1]; if a.Wrote? then a.count else 0)
  }

  /** The loop of publish: a short write goes on where it stopped, an interrupted call is repeated, anything else
      fails. The file ends up with the whole number, or with a beginning of it when a call failed or the calls so
      far have not written enough. */
  method WriteAll(pid: nat, answers: seq<Answer>) returns (written: string, done: bool)
    ensures written <= Render(pid) && (done <==> written == Render(pid))
    ensures !done ==> |written| == Total(answers)
                      || exists i :: 0 <= i < |answers| && (answers[i] == Failed || answers[i] == Wrote(0))
  {
    var text := Render(pid);
    written := [];
    var i := 0;
    while |written| < |text| && i < |answers|
      invariant i <= |answers| && written <= text
      invariant |written| < |text| ==> |written| == Total(answers[..i])
    {
      assert answers[..i + 1][..i] == answers[..i];
      match answers[i] {
        case Interrupted =>
        case Failed => return written, false;
        case Wrote(n) =>
          if n == 0 { return written, false; }
          var k := if n <= |text| - |written| then n else |text| - |written|;
          assert text[..|written|] + text[|written|..|written| + k] == text[..|written| + k];
          written := written + text[|written|..|written| + k];
      }
      i := i + 1;
    }
    assert answers[..|answers|] == answers;
    done := |written| == |text|;
  }
}
