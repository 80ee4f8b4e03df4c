/** Ownership of the PID file among any number of processes that acquire, publish, release and die, with
    every system call a step of its own. The coordination file is never unlinked; the PID file may be
    removed or replaced by an outsider at any moment. */
module PidProtocol {
  import opened Options

  const INT_MAX: nat := 0x7fff_ffff
  const BUFFER: nat := 63

  // ---------- file content ----------

  function Digit(d: nat): (c: char)
    requires d < 10
    ensures '0' <= c <= '9' && c as nat == 48 + d
  {
    (48 + d) as char
  }

  predicate IsDigit(c: char) { '0' <= c <= '9' }

  function Digits(n: nat): (s: string)
    ensures s != [] && forall i :: 0 <= i < |s| ==> IsDigit(s[i])
  {
    if n < 10 then [Digit(n)] else Digits(n / 10) + [Digit(n % 10)]
  }

  /** What publish writes: the decimal digits and a newline. */
  function Render(pid: nat): (s: string) { Digits(pid) + ['\n'] }

  predicate IsSpace(c: char) { c == ' ' || '\t' <= c <= '\r' }

  /** The digits at the front, read on top of a value; the length of the run decides where strtol stops. */
  function ReadDigits(s: string, value: nat): (n: nat) {
    if s == [] || !IsDigit(s[0]) then value else ReadDigits(s[1..], 10 * value + (s[0] as nat - 48))
  }

  function SkipSpace(s: string): (t: string) { if s != [] && IsSpace(s[0]) then SkipSpace(s[1..]) else s }

  /** strtol on the part of the file that was read, and the checks behind it: a process number or nothing. */
  function Parse(content: string): (r: Option<nat>) {
    var s := SkipSpace(if |content| <= BUFFER then content else content[..BUFFER]);
    var t := if s != [] && s[0] == '+' then s[1..] else s;
    if t == [] || !IsDigit(t[0]) then None
    else
      var n := ReadDigits(t, 0);
      if 0 < n <= INT_MAX then Some(n) else None
  }

  function Value(s: string): (n: nat)
    requires forall i :: 0 <= i < |s| ==> IsDigit(s[i])
  {
    assert s != [] ==> IsDigit(s[|s| - 1]);
    if s == [] then 0 else 10 * Value(s[..|s| - 1]) + (s[|s| - 1] as nat - 48)
  }

  lemma {:induction false} ValueOfDigits(n: nat)
    ensures Value(Digits(n)) == n
  {
    var s := Digits(n);
    if n >= 10 {
      ValueOfDigits(n / 10);
      assert s[..|s| - 1] == Digits(n / 10);
    } else {
      assert s[..|s| - 1] == [];
    }
  }

  lemma {:induction false} ReadsValue(done: string, s: string, end: char)
    requires (forall i :: 0 <= i < |done| ==> IsDigit(done[i])) && (forall i :: 0 <= i < |s| ==> IsDigit(s[i])) && !IsDigit(end)
    ensures ReadDigits(s + [end], Value(done)) == Value(done + s)
    decreases |s|
  {
    if s == [] {
      assert done + s == done;
      assert (s + [end])[0] == end;
    } else {
      var done' := done + [s[0]];
      assert done'[..|done'| - 1] == done;
      assert (s + [end])[1..] == s[1..] + [end] && (s + [end])[0] == s[0];
      ReadsValue(done', s[1..], end);
      assert done' + s[1..] == done + s;
    }
  }

  lemma {:induction false} DigitsShort(n: nat, k: nat)
    requires k > 0 && n < Ten(k)
    ensures |Digits(n)| <= k
    decreases k
  {
    if k == 1 {
      assert Ten(1) == 10 * Ten(0);
    } else if n >= 10 {
      DigitsShort(n / 10, k - 1);
    }
  }

  function Ten(k: nat): (n: nat)
    ensures n > 0
  {
    if k == 0 then 1 else 10 * Ten(k - 1)
  }

  /** A complete PID file reads back as the number that was published. */
  lemma {:induction false} ParseRender(pid: nat)
    requires 0 < pid <= INT_MAX
    ensures Parse(Render(pid)) == Some(pid)
  {
    assert Ten(10) == 10_000_000_000 by {
      assert Ten(2) == 100;
      assert Ten(4) == 10_000;
      assert Ten(6) == 1_000_000;
      assert Ten(8) == 100_000_000;
    }
    DigitsShort(pid, 10);
    var s := Render(pid);
    assert s[0] == Digits(pid)[0];
    ValueOfDigits(pid);
    ReadsValue([], Digits(pid), '\n');
    assert [] + Digits(pid) == Digits(pid);
  }

  // ---------- processes and files ----------

  /** Where a process is: between the calls of acquire, publish and release. */
  datatype Pc =
    | Idle | WantGuard | GuardOpen(inode: nat) | WantPid | PidOpen(inode: nat) | Inspecting
    | Owning | Writing(written: nat) | Published
    | Leaving | Checked(same: bool) | Unlinked | Unlocking

  /** What an outsider has done to the PID path. */
  datatype Touch = Untouched | Removed | Replaced

  /** `guard` and `held` are the locked descriptors, `owns` is owns_pid. `since` is what the last outsider did to the PID path
      since this process last saw its own file there. */
  datatype Process = Process(pid: nat, alive: bool, pc: Pc, guard: Option<nat>, held: Option<nat>, owns: bool, since: Touch)

  /** The two paths, and per inode its content and the process that has it locked. */
  datatype World = World(processes: seq<Process>, guard: Option<nat>, path: Option<nat>, content: seq<string>, locks: seq<Option<nat>>)

  datatype Act =
    | Begin(ok: bool)
    | OpenGuard(ok: bool) | LockGuard(ok: bool)
    | OpenPid(ok: bool) | LockPid(ok: bool)
    | Inspect(readable: bool, live: bool, registered: bool)
    | Truncate(emptied: bool, sought: bool) | Write(count: nat) | WriteFails | Sync(ok: bool)
    | Leave
    | Check(ok: bool) | Unlink(ok: bool) | ClosePid | CloseGuard
    | Die | KernelCloses(pidFile: bool)

  datatype Step = Spawn(pid: nat) | Outsider(replacement: Option<string>) | Acts(who: nat, act: Act)

  function Locked(w: World, inode: nat): (b: bool)
    requires inode < |w.locks|
  {
    w.locks[inode].Some?
  }

  function Put(w: World, p: nat, q: Process): (w': World)
    requires p < |w.processes|
  {
    w.(processes := w.processes[p := q])
  }

  predicate Sane(w: World) { |w.content| == |w.locks| }

  predicate Fds(w: World, q: Process) {
    (q.guard.Some? ==> q.guard.value < |w.locks|) && (q.held.Some? ==> q.held.value < |w.locks|)
  }

  /** When a process can take a step: its place in the program, and a live process only. */
  predicate Can(w: World, p: nat, act: Act) {
    && Sane(w) && p < |w.processes| && Fds(w, w.processes[p])
    && var q := w.processes[p];
       && (act.KernelCloses? <==> !q.alive)
       && match act
          case Begin(_) => q.pc.Idle?
          case OpenGuard(_) => q.pc.WantGuard?
          case LockGuard(_) => q.pc.GuardOpen? && q.pc.inode < |w.locks|
          case OpenPid(_) => q.pc.WantPid?
          case LockPid(_) => q.pc.PidOpen? && q.pc.inode < |w.locks|
          case Inspect(_, live, _) =>
            q.pc.Inspecting? && q.held.Some?
            && forall r :: r in w.processes && r.alive && Parse(w.content[q.held.value]) == Some(r.pid) ==> live
          case Truncate(_, _) => (q.pc.Owning? || q.pc.Published?) && q.held.Some?
          case Write(n) => q.pc.Writing? && q.held.Some? && 0 < n && q.pc.written + n <= |Render(q.pid)|
          case WriteFails => q.pc.Writing?
          case Sync(_) => q.pc.Writing? && q.pc.written == |Render(q.pid)|
          case Leave => q.pc.Owning? || q.pc.Published?
          case Check(_) => q.pc.Leaving? && q.held.Some?
          case Unlink(_) => q.pc.Checked?
          case ClosePid => q.pc.Unlinked? && q.held.Some?
          case CloseGuard => q.pc.Unlocking? || (q.pc.Leaving? && q.held.None?)
          case Die => true
          case KernelCloses(pidFile) => if pidFile then q.held.Some? else q.guard.Some?
  }

  /** Opens a path, creating the file when it is missing; yields the inode. */
  function Opened(w: World, at: Option<nat>): (r: (nat, World)) {
    if at.Some? then (at.value, w) else (|w.content|, w.(content := w.content + [""], locks := w.locks + [None]))
  }

  function Unlock(w: World, inode: nat): (w': World)
    requires inode < |w.locks|
  {
    w.(locks := w.locks[inode := None])
  }

  function Act1(w: World, p: nat, act: Act): (w': World)
    requires Can(w, p, act)
  {
    var q := w.processes[p];
    var away := q.(pc := Leaving);
    match act
    case Begin(ok) => Put(w, p, if ok then q.(pc := WantGuard) else away)
    case OpenGuard(ok) =>
      if !ok then Put(w, p, away) else
      var (inode, w1) := Opened(w, w.guard);
      Put(w1.(guard := Some(inode)), p, q.(pc := GuardOpen(inode)))
    case LockGuard(ok) =>
      if !ok || Locked(w, q.pc.inode) then Put(w, p, away)
      else Put(w.(locks := w.locks[q.pc.inode := Some(p)]), p, q.(pc := WantPid, guard := Some(q.pc.inode)))
    case OpenPid(ok) =>
      if !ok then Put(w, p, away) else
      var (inode, w1) := Opened(w, w.path);
      Put(w1.(path := Some(inode)), p, q.(pc := PidOpen(inode), since := Untouched))
    case LockPid(ok) =>
      if !ok || Locked(w, q.pc.inode) then Put(w, p, away)
      else Put(w.(locks := w.locks[q.pc.inode := Some(p)]), p, q.(pc := Inspecting, held := Some(q.pc.inode)))
    case Inspect(readable, live, registered) =>
      if !readable || (Parse(w.content[q.held.value]).Some? && live) then Put(w, p, away)
      else Put(w, p, q.(owns := true, pc := if registered then Owning else Leaving))
    case Truncate(emptied, sought) =>
      if !emptied then Put(w, p, away)
      else Put(w.(content := w.content[q.held.value := ""]), p, if sought then q.(pc := Writing(0)) else away)
    case Write(n) =>
      var k := q.pc.written;
      Put(w.(content := w.content[q.held.value := w.content[q.held.value] + Render(q.pid)[k..k + n]]), p, q.(pc := Writing(k + n)))
    case WriteFails => Put(w, p, away)
    case Sync(ok) => Put(w, p, if ok then q.(pc := Published) else away)
    case Leave => Put(w, p, away)
    case Check(ok) =>
      var same := ok && q.owns && w.path == q.held;
      Put(w, p, q.(pc := Checked(same), since := if same then Untouched else q.since))
    case Unlink(ok) => Put(if q.pc.same && ok then w.(path := None) else w, p, q.(pc := Unlinked))
    case ClosePid => Put(Unlock(w, q.held.value), p, q.(pc := Unlocking, held := None, owns := false))
    case CloseGuard =>
      Put(if q.guard.Some? then Unlock(w, q.guard.value) else w, p, q.(pc := Idle, guard := None, owns := false))
    case Die => Put(w, p, q.(alive := false))
    case KernelCloses(pidFile) =>
      if pidFile then Put(Unlock(w, q.held.value), p, q.(held := None)) else Put(Unlock(w, q.guard.value), p, q.(guard := None))
  }

  predicate CanStep(w: World, step: Step) {
    match step
    case Spawn(pid) => 0 < pid <= INT_MAX
    case Outsider(_) => Sane(w)
    case Acts(p, act) => Can(w, p, act)
  }

  function Next(w: World, step: Step): (w': World)
    requires CanStep(w, step)
  {
    match step
    case Spawn(pid) => w.(processes := w.processes + [Process(pid, true, Idle, None, None, false, Untouched)])
    case Outsider(replacement) =>
      var touch := if replacement.None? then Removed else Replaced;
      var ps := seq(|w.processes|, i requires 0 <= i < |w.processes| => w.processes[i].(since := touch));
      if replacement.None? then w.(processes := ps, path := None)
      else World(ps, w.guard, Some(|w.content|), w.content + [replacement.value], w.locks + [None])
    case Acts(p, act) => Act1(w, p, act)
  }

  const EMPTY: World := World([], None, None, [], [])

  // ---------- the invariant ----------

  /** The descriptors and the flag a live process has at each place. */
  predicate Equipped(q: Process) {
    match q.pc
    case Idle => q.guard.None? && q.held.None? && !q.owns
    case WantGuard => q.guard.None? && q.held.None? && !q.owns
    case GuardOpen(_) => q.guard.None? && q.held.None? && !q.owns
    case WantPid => q.guard.Some? && q.held.None? && !q.owns
    case PidOpen(_) => q.guard.Some? && q.held.None? && !q.owns
    case Inspecting => q.guard.Some? && q.held.Some? && !q.owns
    case Leaving => (q.held.Some? ==> q.guard.Some?) && (q.owns ==> q.held.Some?)
    case Checked(same) => q.guard.Some? && q.held.Some? && (same ==> q.owns)
    case Unlinked => q.guard.Some? && q.held.Some?
    case Unlocking => q.guard.Some? && q.held.None? && !q.owns
    case _ => q.guard.Some? && q.held.Some? && q.owns
  }

  /** Every descriptor a process has is locked by it, and the coordination lock is on the one inode of its path. */
  predicate Holds(w: World, p: nat)
    requires p < |w.processes|
  {
    var q := w.processes[p];
    && Fds(w, q)
    && (q.guard.Some? ==> w.guard == q.guard && w.locks[q.guard.value] == Some(p))
    && (q.held.Some? ==> w.guard != q.held && w.locks[q.held.value] == Some(p))
    && (q.pc.GuardOpen? ==> w.guard == Some(q.pc.inode))
    && (q.pc.PidOpen? ==> q.pc.inode < |w.locks| && w.guard != Some(q.pc.inode))
  }

  /** Where the PID path leads for a process that has opened an inode there. */
  predicate Leads(path: Option<nat>, inode: nat, since: Touch) {
    match since
    case Untouched => path == Some(inode)
    case Removed => path.None?
    case Replaced => path.Some? && path != Some(inode)
  }

  /** What a live process can rely on: where the PID path leads depends only on the last outsider, and the file holds what
      it has written so far. */
  predicate Sees(w: World, p: nat)
    requires p < |w.processes| && Fds(w, w.processes[p]) && Sane(w)
  {
    var q := w.processes[p];
    q.alive ==>
      && (q.pc.PidOpen? ==> Leads(w.path, q.pc.inode, q.since))
      && (q.held.Some? && !q.pc.Unlinked? ==> Leads(w.path, q.held.value, q.since))
      && (q.pc.Writing? && q.held.Some? ==>
            q.pc.written <= |Render(q.pid)| && w.content[q.held.value] == Render(q.pid)[..q.pc.written])
      && (q.pc.Published? && q.held.Some? ==> w.content[q.held.value] == Render(q.pid))
  }

  predicate ProcessOk(w: World, p: nat)
    requires p < |w.processes| && Sane(w)
  {
    var q := w.processes[p];
    Holds(w, p) && Sees(w, p) && (q.alive ==> Equipped(q)) && 0 < q.pid <= INT_MAX
  }

  predicate FilesOk(w: World) {
    && Sane(w) && (w.guard.Some? ==> w.guard.value < |w.content|) && (w.path.Some? ==> w.path.value < |w.content|)
    && (w.guard.Some? ==> w.path != w.guard)
  }

  ghost predicate Inv(w: World) {
    FilesOk(w) && forall p :: 0 <= p < |w.processes| ==> ProcessOk(w, p)
  }

  lemma {:induction false} ActKeepsFiles(w: World, p: nat, act: Act)
    requires FilesOk(w) && Can(w, p, act) && ProcessOk(w, p)
    ensures FilesOk(Act1(w, p, act))
  {
  }

  /** Steps that change nothing but the process that takes them. */
  predicate IsPlain(act: Act) {
    act.Begin? || act.Inspect? || act.WriteFails? || act.Sync? || act.Leave? || act.Die?
  }

  lemma {:induction false} LockSelf(w: World, p: nat, act: Act)
    requires FilesOk(w) && Can(w, p, act) && ProcessOk(w, p) && FilesOk(Act1(w, p, act))
    requires act.LockGuard? || act.LockPid?
    ensures |Act1(w, p, act).processes| == |w.processes| && ProcessOk(Act1(w, p, act), p)
  {
  }

  lemma {:induction false} LockOther(w: World, p: nat, act: Act, r: nat)
    requires FilesOk(w) && Can(w, p, act) && ProcessOk(w, p) && FilesOk(Act1(w, p, act))
    requires r < |w.processes| && r != p && ProcessOk(w, r)
    requires act.LockGuard? || act.LockPid?
    ensures |Act1(w, p, act).processes| == |w.processes| && ProcessOk(Act1(w, p, act), r)
  {
  }

  lemma {:induction false} OpenSelf(w: World, p: nat, act: Act)
    requires FilesOk(w) && Can(w, p, act) && ProcessOk(w, p) && FilesOk(Act1(w, p, act))
    requires act.OpenGuard? || act.OpenPid?
    ensures |Act1(w, p, act).processes| == |w.processes| && ProcessOk(Act1(w, p, act), p)
  {
  }

  lemma {:induction false} OpenOther(w: World, p: nat, act: Act, r: nat)
    requires FilesOk(w) && Can(w, p, act) && ProcessOk(w, p) && FilesOk(Act1(w, p, act))
    requires r < |w.processes| && r != p && ProcessOk(w, r)
    requires act.OpenGuard? || act.OpenPid?
    ensures |Act1(w, p, act).processes| == |w.processes| && ProcessOk(Act1(w, p, act), r)
  {
  }

  lemma {:induction false} PublishSelf(w: World, p: nat, act: Act)
    requires FilesOk(w) && Can(w, p, act) && ProcessOk(w, p) && FilesOk(Act1(w, p, act))
    requires act.Truncate? || act.Write?
    ensures |Act1(w, p, act).processes| == |w.processes| && ProcessOk(Act1(w, p, act), p)
  {
    if act.Write? {
      var q := w.processes[p];
      assert Render(q.pid)[..q.pc.written] + Render(q.pid)[q.pc.written..q.pc.written + act.count]
          == Render(q.pid)[..q.pc.written + act.count];
    }
  }

  lemma {:induction false} PublishOther(w: World, p: nat, act: Act, r: nat)
    requires FilesOk(w) && Can(w, p, act) && ProcessOk(w, p) && FilesOk(Act1(w, p, act))
    requires r < |w.processes| && r != p && ProcessOk(w, r)
    requires act.Truncate? || act.Write?
    ensures |Act1(w, p, act).processes| == |w.processes| && ProcessOk(Act1(w, p, act), r)
  {
  }

  lemma {:induction false} CloseSelf(w: World, p: nat, act: Act)
    requires FilesOk(w) && Can(w, p, act) && ProcessOk(w, p) && FilesOk(Act1(w, p, act))
    requires act.ClosePid? || act.CloseGuard? || act.KernelCloses?
    ensures |Act1(w, p, act).processes| == |w.processes| && ProcessOk(Act1(w, p, act), p)
  {
  }

  lemma {:induction false} CloseOther(w: World, p: nat, act: Act, r: nat)
    requires FilesOk(w) && Can(w, p, act) && ProcessOk(w, p) && FilesOk(Act1(w, p, act))
    requires r < |w.processes| && r != p && ProcessOk(w, r)
    requires act.ClosePid? || act.CloseGuard? || act.KernelCloses?
    ensures |Act1(w, p, act).processes| == |w.processes| && ProcessOk(Act1(w, p, act), r)
  {
  }

  lemma {:induction false} ReleaseSelf(w: World, p: nat, act: Act)
    requires FilesOk(w) && Can(w, p, act) && ProcessOk(w, p) && FilesOk(Act1(w, p, act))
    requires act.Check? || act.Unlink?
    ensures |Act1(w, p, act).processes| == |w.processes| && ProcessOk(Act1(w, p, act), p)
  {
  }

  lemma {:induction false} ReleaseOther(w: World, p: nat, act: Act, r: nat)
    requires FilesOk(w) && Can(w, p, act) && ProcessOk(w, p) && FilesOk(Act1(w, p, act))
    requires r < |w.processes| && r != p && ProcessOk(w, r)
    requires act.Check? || act.Unlink?
    ensures |Act1(w, p, act).processes| == |w.processes| && ProcessOk(Act1(w, p, act), r)
  {
  }

  lemma {:induction false} PlainSelf(w: World, p: nat, act: Act)
    requires FilesOk(w) && Can(w, p, act) && ProcessOk(w, p) && FilesOk(Act1(w, p, act))
    requires IsPlain(act)
    ensures |Act1(w, p, act).processes| == |w.processes| && ProcessOk(Act1(w, p, act), p)
  {
  }

  lemma {:induction false} PlainOther(w: World, p: nat, act: Act, r: nat)
    requires FilesOk(w) && Can(w, p, act) && ProcessOk(w, p) && FilesOk(Act1(w, p, act))
    requires r < |w.processes| && r != p && ProcessOk(w, r)
    requires IsPlain(act)
    ensures |Act1(w, p, act).processes| == |w.processes| && ProcessOk(Act1(w, p, act), r)
  {
  }

  lemma {:induction false} ActKeepsSelf(w: World, p: nat, act: Act)
    requires FilesOk(w) && Can(w, p, act) && ProcessOk(w, p) && FilesOk(Act1(w, p, act))
    ensures |Act1(w, p, act).processes| == |w.processes| && ProcessOk(Act1(w, p, act), p)
  {
    if act.LockGuard? || act.LockPid? {
      LockSelf(w, p, act);
    } else if act.OpenGuard? || act.OpenPid? {
      OpenSelf(w, p, act);
    } else if act.Truncate? || act.Write? {
      PublishSelf(w, p, act);
    } else if act.ClosePid? || act.CloseGuard? || act.KernelCloses? {
      CloseSelf(w, p, act);
    } else if act.Check? || act.Unlink? {
      ReleaseSelf(w, p, act);
    } else {
      PlainSelf(w, p, act);
    }
  }

  lemma {:induction false} ActKeepsOther(w: World, p: nat, act: Act, r: nat)
    requires FilesOk(w) && Can(w, p, act) && ProcessOk(w, p) && FilesOk(Act1(w, p, act))
    requires r < |w.processes| && r != p && ProcessOk(w, r)
    ensures |Act1(w, p, act).processes| == |w.processes| && ProcessOk(Act1(w, p, act), r)
  {
    if act.LockGuard? || act.LockPid? {
      LockOther(w, p, act, r);
    } else if act.OpenGuard? || act.OpenPid? {
      OpenOther(w, p, act, r);
    } else if act.Truncate? || act.Write? {
      PublishOther(w, p, act, r);
    } else if act.ClosePid? || act.CloseGuard? || act.KernelCloses? {
      CloseOther(w, p, act, r);
    } else if act.Check? || act.Unlink? {
      ReleaseOther(w, p, act, r);
    } else {
      PlainOther(w, p, act, r);
    }
  }

  lemma {:induction false} OutsiderKeeps(w: World, replacement: Option<string>)
    requires Inv(w)
    ensures Inv(Next(w, Outsider(replacement)))
  {
    var w' := Next(w, Outsider(replacement));
    forall p | 0 <= p < |w'.processes| ensures ProcessOk(w', p) { assert ProcessOk(w, p); }
  }

  lemma {:induction false} SpawnKeeps(w: World, pid: nat)
    requires Inv(w) && 0 < pid <= INT_MAX
    ensures Inv(Next(w, Spawn(pid)))
  {
    var w' := Next(w, Spawn(pid));
    forall p | 0 <= p < |w'.processes| ensures ProcessOk(w', p) {
      if p < |w.processes| { assert ProcessOk(w, p); }
    }
  }

  /** Every step keeps the invariant. */
  lemma {:induction false} NextKeeps(w: World, step: Step)
    requires Inv(w) && CanStep(w, step)
    ensures Inv(Next(w, step))
  {
    match step
    case Spawn(pid) => SpawnKeeps(w, pid);
    case Outsider(replacement) => OutsiderKeeps(w, replacement);
    case Acts(p, act) =>
      var w' := Act1(w, p, act);
      ActKeepsFiles(w, p, act);
      ActKeepsSelf(w, p, act);
      forall r | 0 <= r < |w'.processes| ensures ProcessOk(w', r) {
        if r != p { ActKeepsOther(w, p, act, r); }
      }
  }
}
