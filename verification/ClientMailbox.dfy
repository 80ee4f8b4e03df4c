/** The one-command mailbox between the client's callers and its I/O thread: a caller stores a command, raises `pending`,
    wakes the loop and sleeps until `pending` is down; the loop runs the stored command and stores its result.

    Commands are numbered as they are posted, and a stored result is the number of the command it belongs to. A sleeping
    caller may wake at any time and looks at `pending` again. */
module ClientMailbox {
  import opened Options

  datatype Caller = Free | Waiting(command: nat)

  /** execute, between reading the command and storing the result. */
  datatype IoThread = Quiet | Running(command: nat)

  /** `async` is libuv's pending wake-up, which several sends share. `executed` lists the commands run, `answers` the calls
      that returned, each with the command whose result it got; `refused` the calls whose wake-up failed. */
  datatype Mailbox = Mailbox(
    callers: seq<Caller>, command: nat, pending: bool, result: nat, async: bool, io: IoThread,
    posted: nat, executed: seq<nat>, answers: seq<(nat, nat)>, refused: seq<nat>)

  datatype Step = Call(who: nat, wakes: bool) | Take | Finish | Return(who: nat)

  predicate CanStep(m: Mailbox, step: Step) {
    match step
    case Call(i, _) => i < |m.callers| && m.callers[i].Free?
    case Take => m.async && m.io.Quiet?
    case Finish => m.io.Running?
    case Return(i) => i < |m.callers| && m.callers[i].Waiting? && !m.pending
  }

  function Next(m: Mailbox, step: Step): (m': Mailbox)
    requires CanStep(m, step)
  {
    match step
    case Call(i, wakes) =>
      var m1 := m.(command := m.posted, pending := wakes, posted := m.posted + 1);
      if wakes then m1.(async := true, callers := m.callers[i := Waiting(m.posted)])
      else m1.(refused := m.refused + [m.posted])
    case Take => m.(async := false, io := Running(m.command))
    case Finish => m.(io := Quiet, result := m.io.command, pending := false, executed := m.executed + [m.io.command])
    case Return(i) => m.(callers := m.callers[i := Free], answers := m.answers + [(m.callers[i].command, m.result)])
  }

  predicate Start(m: Mailbox) {
    && (forall i :: 0 <= i < |m.callers| ==> m.callers[i].Free?) && !m.pending && !m.async && m.io.Quiet?
    && m.posted == 0 && m.executed == [] && m.answers == [] && m.refused == []
  }

  ghost predicate Moves(m: Mailbox, step: Step, m': Mailbox) { CanStep(m, step) && m' == Next(m, step) }

  ghost predicate Execution(run: seq<Mailbox>, steps: seq<Step>) {
    && |run| == |steps| + 1 && Start(run[0])
    && forall n :: 0 <= n < |steps| ==> Moves(run[n], steps[n], run[n + 1])
  }

  /** Nobody waits. */
  predicate AllFree(m: Mailbox) { forall i :: 0 <= i < |m.callers| ==> m.callers[i].Free? }

  /** The calls of a run do not overlap. */
  ghost predicate Serial(run: seq<Mailbox>, steps: seq<Step>) {
    |steps| < |run| && forall n :: 0 <= n < |steps| && steps[n].Call? ==> AllFree(run[n])
  }

  // ---------- calls that do not overlap ----------

  /** The commands of the calls that were not refused, in order. */
  function Accepted(steps: seq<Step>, n: nat): (commands: seq<nat>)
    requires n <= |steps|
  {
    if n == 0 then [] else Accepted(steps, n - 1) + if steps[n - 1].Call? && steps[n - 1].wakes then [Calls(steps, n - 1)] else []
  }

  function Calls(steps: seq<Step>, n: nat): (c: nat)
    requires n <= |steps|
  {
    if n == 0 then 0 else Calls(steps, n - 1) + if steps[n - 1].Call? then 1 else 0
  }

  function Asked(answers: seq<(nat, nat)>): (commands: seq<nat>) {
    if answers == [] then [] else Asked(answers[..|answers| - 1]) + [answers[|answers| - 1].0]
  }

  /** The command of the only caller that waits. */
  ghost predicate OneWaits(m: Mailbox, i: nat) {
    i < |m.callers| && m.callers[i].Waiting? && forall j :: 0 <= j < |m.callers| && j != i ==> m.callers[j].Free?
  }

  /** Where the command of the waiting caller is: still to be taken, running, or done with its result stored. */
  predicate Underway(m: Mailbox, c: nat) {
    || (m.pending && m.async && m.io.Quiet? && m.command == c)
    || (m.pending && !m.async && m.io == Running(c))
    || (!m.pending && !m.async && m.io.Quiet? && m.result == c)
  }

  predicate Right(answers: seq<(nat, nat)>) { forall k :: 0 <= k < |answers| ==> answers[k].0 == answers[k].1 }

  /** `accepted` are the commands accepted so far. */
  ghost predicate Inv(m: Mailbox, accepted: seq<nat>) {
    && Right(m.answers)
    && if AllFree(m) then !m.pending && !m.async && m.io.Quiet? && m.executed == accepted && Asked(m.answers) == accepted
       else exists i: nat :: Holding(m, accepted, i)
  }

  ghost predicate Holding(m: Mailbox, accepted: seq<nat>, i: nat) {
    && OneWaits(m, i) && Underway(m, m.callers[i].command)
    && Asked(m.answers) + [m.callers[i].command] == accepted
    && m.executed + (if m.pending then [m.callers[i].command] else []) == accepted
  }

  lemma {:induction false} CallKeeps(m: Mailbox, accepted: seq<nat>, i: nat, wakes: bool)
    requires Inv(m, accepted) && CanStep(m, Call(i, wakes)) && AllFree(m)
    ensures Inv(Next(m, Call(i, wakes)), accepted + if wakes then [m.posted] else [])
  {
    var m' := Next(m, Call(i, wakes));
    if wakes {
      assert !m'.callers[i].Free?;
      assert Holding(m', accepted + [m.posted], i);
    } else {
      assert accepted + [] == accepted;
    }
  }

  lemma {:induction false} LoopKeeps(m: Mailbox, accepted: seq<nat>, step: Step)
    requires Inv(m, accepted) && CanStep(m, step) && (step.Take? || step.Finish?)
    ensures Inv(Next(m, step), accepted)
  {
    var i: nat :| Holding(m, accepted, i);
    var m' := Next(m, step);
    assert m.executed + [m.callers[i].command] + [] == m.executed + [m.callers[i].command];
    assert !m'.callers[i].Free? && Holding(m', accepted, i);
  }

  lemma {:induction false} ReturnKeeps(m: Mailbox, accepted: seq<nat>, i: nat)
    requires Inv(m, accepted) && CanStep(m, Return(i))
    ensures Inv(Next(m, Return(i)), accepted)
  {
    assert !AllFree(m);
    var j: nat :| Holding(m, accepted, j);
    var m' := Next(m, Return(i));
    assert i == j && AllFree(m');
    assert m'.answers[..|m.answers|] == m.answers && m.executed + [] == m.executed;
  }

  lemma {:induction false} SerialInv(run: seq<Mailbox>, steps: seq<Step>, n: nat)
    requires Execution(run, steps) && Serial(run, steps) && n <= |steps|
    ensures Inv(run[n], Accepted(steps, n)) && run[n].posted == Calls(steps, n)
    decreases n
  {
    if n > 0 {
      SerialInv(run, steps, n - 1);
      assert Moves(run[n - 1], steps[n - 1], run[n]);
      var accepted := Accepted(steps, n - 1);
      match steps[n - 1] {
        case Call(i, wakes) => CallKeeps(run[n - 1], accepted, i, wakes);
        case Return(i) => ReturnKeeps(run[n - 1], accepted, i);
        case _ => LoopKeeps(run[n - 1], accepted, steps[n - 1]);
      }
      assert accepted + [] == accepted;
    }
  }

  /** While calls do not overlap, every command that was not refused is run exactly once and in order, every call that has
      returned got the result of its own command, and the last command is missing only while its caller waits for it. */
  lemma {:induction false} EachCallServed(run: seq<Mailbox>, steps: seq<Step>, n: nat)
    requires Execution(run, steps) && Serial(run, steps) && n <= |steps|
    ensures Right(run[n].answers) && run[n].executed <= Accepted(steps, n) && Asked(run[n].answers) <= Accepted(steps, n)
    ensures |Accepted(steps, n)| <= |run[n].executed| + 1 && |Accepted(steps, n)| <= |run[n].answers| + 1
    ensures AllFree(run[n]) ==> run[n].executed == Accepted(steps, n) == Asked(run[n].answers)
  {
    SerialInv(run, steps, n);
    AskedLength(run[n].answers);
  }

  lemma {:induction false} AskedLength(answers: seq<(nat, nat)>)
    ensures |Asked(answers)| == |answers|
  {
    if answers != [] { AskedLength(answers[..|answers| - 1]); }
  }

  // ---------- calls that overlap ----------

  /** A command is numbered before it is stored or run. */
  ghost predicate Numbered(m: Mailbox) {
    && (m.async ==> m.command < m.posted) && (m.io.Running? ==> m.io.command < m.posted)
    && forall i :: 0 <= i < |m.callers| && m.callers[i].Waiting? ==> m.callers[i].command < m.posted
  }

  lemma {:induction false} AlwaysNumbered(run: seq<Mailbox>, steps: seq<Step>, n: nat)
    requires Execution(run, steps) && n <= |steps|
    ensures Numbered(run[n])
    decreases n
  {
    if n > 0 {
      AlwaysNumbered(run, steps, n - 1);
      assert Moves(run[n - 1], steps[n - 1], run[n]);
    }
  }

  /** The steps lead from one state to the other. */
  ghost predicate Leads(m: Mailbox, steps: seq<Step>, m': Mailbox)
    decreases |steps|
  {
    if steps == [] then m' == m else CanStep(m, steps[0]) && Leads(Next(m, steps[0]), steps[1..], m')
  }

  lemma {:induction false} LeadsOn(m: Mailbox, step: Step, more: seq<Step>, m': Mailbox)
    requires CanStep(m, step) && Leads(Next(m, step), more, m')
    ensures Leads(m, [step] + more, m')
  {
    assert ([step] + more)[1..] == more;
  }

  /** One call made while another waits is enough: from any such state of any run, some continuation hands a caller the result
      of somebody else's command. */
  lemma {:induction false} OverlapMixesResults(run: seq<Mailbox>, steps: seq<Step>, n: nat, i: nat, j: nat)
    returns (more: seq<Step>, end: Mailbox)
    requires Execution(run, steps) && n <= |steps| && i < |run[n].callers| && run[n].callers[i].Waiting?
    requires j < |run[n].callers| && run[n].callers[j].Free?
    ensures more != [] && more[0] == Call(j, true) && Leads(run[n], more, end) && !Right(end.answers)
  {
    AlwaysNumbered(run, steps, n);
    var m := run[n];
    var m1 := Next(m, Call(j, true));
    if m.io.Running? {
      var m2 := Next(m1, Finish);
      end := Next(m2, Return(j));
      assert end.answers[|m.answers|] == (m.posted, m.io.command);
      LeadsOn(m2, Return(j), [], end);
      LeadsOn(m1, Finish, [Return(j)] + [], end);
      more := [Call(j, true)] + ([Finish] + ([Return(j)] + []));
      LeadsOn(m, Call(j, true), [Finish] + ([Return(j)] + []), end);
    } else {
      var m2 := Next(m1, Take);
      var m3 := Next(m2, Finish);
      end := Next(m3, Return(i));
      assert end.answers[|m.answers|] == (m.callers[i].command, m.posted);
      LeadsOn(m3, Return(i), [], end);
      LeadsOn(m2, Finish, [Return(i)] + [], end);
      LeadsOn(m1, Take, [Finish] + ([Return(i)] + []), end);
      more := [Call(j, true)] + ([Take] + ([Finish] + ([Return(i)] + [])));
      LeadsOn(m, Call(j, true), [Take] + ([Finish] + ([Return(i)] + [])), end);
    }
  }
}
