/** The per-project compose lock (internal/artifacts/compose.go) as a protocol:
    any number of runs take, inspect, take over and release one lock file by
    atomic file system calls. Every call is a step of its own, and any step of
    any run may come next.

    A file has an identity of its own (`Ino`, never reused here): a name only
    leads to it, so a writer keeps writing to its file after another run renamed
    it. Whether two different files get the same inode number is left open (the
    `same` argument of a read step): the protocol must not depend on it. */
module ComposeLock {
  import opened Wrappers

  type Run = nat
  type Ino = nat
  // What a lock holds, as characters' numbers: without a bound, so that there is
  // always a token no run made yet.
  type Line = seq<nat>

  const NEWLINE: nat := 10

  // The most of a lock file that is read.
  const LOCK_READ_MAX: nat := 256
  // How long a lock may stay before the next run takes it over, in seconds.
  const LOCK_MAX_AGE: nat := 3600

  /** What readLock accepts: one line, complete, not too long. */
  predicate Complete(c: Line) {
    0 < |c| <= LOCK_READ_MAX && NewlineIn(c) == |c| - 1
  }

  /** Where the first newline of c is, |c| when there is none. */
  function NewlineIn(c: Line): nat {
    if c == [] || c[0] == NEWLINE then 0 else 1 + NewlineIn(c[1..])
  }

  // ------------------------------------------------------------------ state

  /** The lock name, or the fresh private name of one removeLock call: a run
      moves a lock aside at most once to take it over and once to release it. */
  datatype Name = LockName | Private(run: Run, takeover: bool)

  /** A lock file: who created it, the line it is meant to hold, how much of it
      has been written so far, and when it was last written. */
  datatype File = File(owner: Run, line: Line, written: nat, mtime: nat) {
    function Content(): Line { if written < |line| then line[..written] else line }
  }

  /** Where a readLock call is: lstat, then open, then read what was opened. */
  datatype Reading = AtLstat | AtOpen(seen: Ino) | AtRead(ino: Ino, mtime: nat)

  /** The arguments of a removeLock call and who called it: lock() to take over
      a stale lock, or the unlock function. */
  datatype Removal = Removal(want: Line, takeover: bool)

  datatype Pc =
    | Creating(attempt: nat)
    | Writing
    | Aborting
    | Holding
    | Inspecting(attempt: nat, rd: Reading)
    | Checking(rm: Removal, rd: Reading)
    | Renaming(rm: Removal)
    | Verifying(rm: Removal, rd: Reading)
    | PuttingBack(rm: Removal)
    | Dropping(rm: Removal, matched: bool)
    | Finished
    | Dead

  /** What happened, for the properties only: no step looks at the log. */
  datatype Event =
    | FoundStale(run: Run, age: int)
    | Renamed(run: Run, rm: Removal, ino: Ino, content: Line, ownerInside: bool)
    | Removed(run: Run, want: Line, ino: Ino, content: Line)
    | PutBack(run: Run, ino: Ino, holder: Ino)
    | Aborted(run: Run, removed: Option<Ino>)

  /** The directory and the files; which file holds each line ever made; per run
      its program counter, the time lock() was called with and the lock file it
      created; the clock; the next file identity. */
  datatype State = State(
    dir: map<Name, Ino>, files: map<Ino, File>, lines: map<Line, Ino>,
    pcs: map<Run, Pc>, nows: map<Run, nat>, owns: map<Run, Ino>,
    clock: nat, nextIno: nat, log: seq<Event>)

  const INIT := State(map[], map[], map[], map[], map[], map[], 0, 0, [])

  /** Between its exclusive create and the start of its unlock. A run whose
      write failed still counts until it removed its file. */
  predicate InsidePc(pc: Pc) { pc.Writing? || pc.Aborting? || pc.Holding? }

  predicate Inside(s: State, r: Run) { r in s.pcs && InsidePc(s.pcs[r]) }

  // ------------------------------------------------------------- well-formed

  predicate HasMoved(pc: Pc) { pc.Verifying? || pc.PuttingBack? || pc.Dropping? }

  function RemovalOf(pc: Pc): Option<Removal> {
    match pc
    case Checking(rm, _) => Some(rm)
    case Renaming(rm) => Some(rm)
    case Verifying(rm, _) => Some(rm)
    case PuttingBack(rm) => Some(rm)
    case Dropping(rm, _) => Some(rm)
    case _ => None
  }

  function ReadingOf(pc: Pc): Reading {
    match pc
    case Inspecting(_, rd) => rd
    case Checking(_, rd) => rd
    case Verifying(_, rd) => rd
    case _ => AtLstat
  }

  predicate ReadingOk(files: map<Ino, File>, rd: Reading) {
    match rd
    case AtLstat => true
    case AtOpen(seen) => seen in files
    case AtRead(ino, _) => ino in files
  }

  ghost predicate DirOk(dir: map<Name, Ino>, files: map<Ino, File>) {
    forall n | n in dir :: dir[n] in files
  }

  /** Every file has the line its creator means it to hold, a line no other
      file has, and so far a prefix of it. */
  ghost predicate FilesOk(files: map<Ino, File>, lines: map<Line, Ino>, owns: map<Run, Ino>, nextIno: nat) {
    forall i | i in files ::
      && i < nextIno
      && files[i].owner in owns && owns[files[i].owner] == i
      && files[i].line in lines && lines[files[i].line] == i
      && Complete(files[i].line) && files[i].written <= |files[i].line|
  }

  ghost predicate OwnsOk(files: map<Ino, File>, owns: map<Run, Ino>) {
    forall r | r in owns :: owns[r] in files && files[owns[r]].owner == r
  }

  predicate Written(files: map<Ino, File>, i: Ino, line: Line) {
    i in files && files[i].line == line && files[i].written == |line|
  }

  /** A removal asks for a line some file holds in full: the run's own when it
      unlocks, any when it takes over (it then has no file of its own). */
  predicate RemovalOk(files: map<Ino, File>, lines: map<Line, Ino>, owns: map<Run, Ino>, r: Run, rm: Removal) {
    && Complete(rm.want) && rm.want in lines && Written(files, lines[rm.want], rm.want)
    && (if rm.takeover then r !in owns else r in owns && lines[rm.want] == owns[r])
  }

  predicate PrivateOk(dir: map<Name, Ino>, files: map<Ino, File>, lines: map<Line, Ino>, r: Run, pc: Pc) {
    HasMoved(pc) ==>
      && Private(r, pc.rm.takeover) in dir
      && dir[Private(r, pc.rm.takeover)] in files
      && (pc.Verifying? && pc.rd.AtOpen? ==> pc.rd.seen == dir[Private(r, pc.rm.takeover)])
      && (pc.Verifying? && pc.rd.AtRead? ==> pc.rd.ino == dir[Private(r, pc.rm.takeover)])
      && (pc.Dropping? && pc.matched ==> pc.rm.want in lines && dir[Private(r, pc.rm.takeover)] == lines[pc.rm.want])
  }

  predicate PcOk(files: map<Ino, File>, lines: map<Line, Ino>, owns: map<Run, Ino>, r: Run, pc: Pc) {
    && ReadingOk(files, ReadingOf(pc))
    && (InsidePc(pc) ==> r in owns)
    && (pc.Holding? ==> r in owns && owns[r] in files && Written(files, owns[r], files[owns[r]].line))
    && (pc.Creating? || pc.Inspecting? ==> r !in owns && pc.attempt <= 1)
    && (RemovalOf(pc).Some? ==> RemovalOk(files, lines, owns, r, RemovalOf(pc).value))
  }

  ghost predicate RunsOk(dir: map<Name, Ino>, files: map<Ino, File>, lines: map<Line, Ino>, owns: map<Run, Ino>, pcs: map<Run, Pc>) {
    forall r | r in pcs :: PcOk(files, lines, owns, r, pcs[r]) && PrivateOk(dir, files, lines, r, pcs[r])
  }

  /** What makes every step meaningful; it holds in every state of every
      behaviour (StepKeepsWellFormed). */
  ghost predicate WellFormed(s: State) {
    && s.pcs.Keys == s.nows.Keys
    && s.owns.Keys <= s.pcs.Keys
    && DirOk(s.dir, s.files)
    && FilesOk(s.files, s.lines, s.owns, s.nextIno)
    && OwnsOk(s.files, s.owns)
    && RunsOk(s.dir, s.files, s.lines, s.owns, s.pcs)
  }

  // ------------------------------------------------------------------- steps

  datatype Step =
    | Tick(d: nat)
    | Begin(run: Run)
    | Create(run: Run, line: Line, ok: bool)
    | Write(run: Run, n: nat)
    | Close(run: Run)
    | Fail(run: Run)
    | Abort(run: Run)
    | Unlock(run: Run)
    | Read(run: Run, ok: bool, same: bool)
    | Rename(run: Run, ok: bool)
    | Link(run: Run)
    | Drop(run: Run)
    | Crash(run: Run)

  function Goto(s: State, r: Run, pc: Pc): State requires r in s.pcs {
    s.(pcs := s.pcs[r := pc])
  }

  function Log(s: State, e: Event): State { s.(log := s.log + [e]) }

  /** A run calls lock(). */
  function Begun(s: State, r: Run): State {
    s.(pcs := s.pcs[r := Creating(0)], nows := s.nows[r := s.clock])
  }

  predicate CanUnlock(s: State, r: Run) {
    r in s.pcs && s.pcs[r].Holding? && r in s.owns && s.owns[r] in s.files
  }

  /** A run calls its unlock function. */
  function Unlocking(s: State, r: Run): Pc requires CanUnlock(s, r) {
    Checking(Removal(s.files[s.owns[r]].line, false), AtLstat)
  }

  /** createLock's exclusive create. `ok` false: it failed for another reason
      than a lock that exists. The line is fresh: it holds a random token. */
  predicate CanCreate(s: State, r: Run, line: Line) {
    && r in s.pcs && s.pcs[r].Creating? && Complete(line)
    && line !in s.lines
  }

  function CreateLock(s: State, r: Run, line: Line, ok: bool): State
    requires CanCreate(s, r, line)
  {
    if !ok then Goto(s, r, Finished)
    else if LockName in s.dir then Goto(s, r, Inspecting(s.pcs[r].attempt, AtLstat))
    else
      s.(dir := s.dir[LockName := s.nextIno],
         files := s.files[s.nextIno := File(r, line, 0, s.clock)],
         lines := s.lines[line := s.nextIno],
         pcs := s.pcs[r := Writing],
         owns := s.owns[r := s.nextIno],
         nextIno := s.nextIno + 1)
  }

  predicate InWriting(s: State, r: Run) {
    r in s.pcs && s.pcs[r].Writing? && r in s.owns && s.owns[r] in s.files
  }

  /** createLock's write, n bytes of it: a reader may see any part. */
  predicate CanWrite(s: State, r: Run, n: nat) {
    && InWriting(s, r)
    && 0 < n <= |s.files[s.owns[r]].line| - s.files[s.owns[r]].written
  }

  function WriteLine(s: State, r: Run, n: nat): State
    requires CanWrite(s, r, n)
  {
    var i := s.owns[r];
    var f := s.files[i];
    s.(files := s.files[i := File(f.owner, f.line, f.written + n, s.clock)])
  }

  predicate CanClose(s: State, r: Run) {
    InWriting(s, r) && s.files[s.owns[r]].written == |s.files[s.owns[r]].line|
  }

  /** createLock's Remove after a failed write: by name. */
  function AbortCreate(s: State, r: Run): State
    requires r in s.pcs
  {
    Log(Goto(s.(dir := s.dir - {LockName}), r, Finished),
        Aborted(r, if LockName in s.dir then Some(s.dir[LockName]) else None))
  }

  /** One call of readLock's three, on the file `name`. `ok` false: the call
      failed, or found something that isn't a regular file. `same`: a file other
      than the one lstat saw has the same inode number. */
  datatype Outcome = More(rd: Reading) | Missing | Bad | Got(content: Line, mtime: nat)

  function ReadLock(s: State, name: Name, rd: Reading, ok: bool, same: bool): Outcome
    requires ReadingOk(s.files, rd) && (name in s.dir ==> s.dir[name] in s.files)
  {
    match rd
    case AtLstat =>
      if name !in s.dir then Missing else if !ok then Bad else More(AtOpen(s.dir[name]))
    case AtOpen(seen) =>
      if name !in s.dir then Missing
      else if ok && (s.dir[name] == seen || same) then More(AtRead(s.dir[name], s.files[s.dir[name]].mtime))
      else Bad
    case AtRead(ino, mtime) =>
      if ok && Complete(s.files[ino].Content()) then Got(s.files[ino].Content(), mtime) else Bad
  }

  /** What lock() does with the outcome of its readLock. */
  function AfterInspecting(now: nat, attempt: nat, out: Outcome): Pc {
    match out
    case More(rd) => Inspecting(attempt, rd)
    case Missing => if attempt == 0 then Creating(1) else Finished
    case Bad => Finished
    case Got(held, mtime) =>
      if attempt > 0 || now - mtime <= LOCK_MAX_AGE then Finished else Checking(Removal(held, true), AtLstat)
  }

  /** What removeLock does with the outcome of its first readLock. */
  function AfterChecking(rm: Removal, out: Outcome): Pc {
    match out
    case More(rd) => Checking(rm, rd)
    case Got(c, _) => if c == rm.want then Renaming(rm) else Finished
    case _ => Finished
  }

  /** What removeLock does with the outcome of its second readLock. */
  function AfterVerifying(rm: Removal, out: Outcome): Pc {
    match out
    case More(rd) => Verifying(rm, rd)
    case Got(c, _) => if c == rm.want then Dropping(rm, true) else PuttingBack(rm)
    case _ => PuttingBack(rm)
  }

  function ReadName(r: Run, pc: Pc): Name { if pc.Verifying? then Private(r, pc.rm.takeover) else LockName }

  predicate IsReading(s: State, r: Run) {
    && r in s.pcs && r in s.nows
    && (s.pcs[r].Inspecting? || s.pcs[r].Checking? || s.pcs[r].Verifying?)
    && ReadingOk(s.files, ReadingOf(s.pcs[r]))
    && (ReadName(r, s.pcs[r]) in s.dir ==> s.dir[ReadName(r, s.pcs[r])] in s.files)
  }

  predicate CanMove(s: State, r: Run) {
    r in s.pcs && s.pcs[r].Renaming? && (LockName in s.dir ==> s.dir[LockName] in s.files)
  }

  predicate CanLink(s: State, r: Run) {
    r in s.pcs && s.pcs[r].PuttingBack? && Private(r, s.pcs[r].rm.takeover) in s.dir
  }

  predicate CanDrop(s: State, r: Run) {
    && r in s.pcs && s.pcs[r].Dropping? && Private(r, s.pcs[r].rm.takeover) in s.dir
    && s.dir[Private(r, s.pcs[r].rm.takeover)] in s.files
  }

  /** The program counter after one read call of run r. */
  function ReadPc(s: State, r: Run, ok: bool, same: bool): Pc
    requires IsReading(s, r)
  {
    var pc := s.pcs[r];
    var out := ReadLock(s, ReadName(r, pc), ReadingOf(pc), ok, same);
    match pc
    case Inspecting(attempt, _) => AfterInspecting(s.nows[r], attempt, out)
    case Checking(rm, _) => AfterChecking(rm, out)
    case Verifying(rm, _) => AfterVerifying(rm, out)
  }

  /** The age lock() finds, when it goes on to take the lock over. */
  function StaleAge(s: State, r: Run): int
    requires IsReading(s, r)
  {
    var rd := ReadingOf(s.pcs[r]);
    if rd.AtRead? then s.nows[r] - rd.mtime else 0
  }

  function ReadStep(s: State, r: Run, ok: bool, same: bool): State
    requires IsReading(s, r)
  {
    var pc := ReadPc(s, r, ok, same);
    var t := Goto(s, r, pc);
    if s.pcs[r].Inspecting? && pc.Checking? then Log(t, FoundStale(r, StaleAge(s, r))) else t
  }

  /** removeLock's rename to a private name. */
  function MoveAside(s: State, r: Run, ok: bool): State
    requires CanMove(s, r)
  {
    var rm := s.pcs[r].rm;
    if !ok || LockName !in s.dir then Goto(s, r, Finished)
    else
      var i := s.dir[LockName];
      Log(Goto(s.(dir := (s.dir - {LockName})[Private(r, rm.takeover) := i]), r, Verifying(rm, AtLstat)),
          Renamed(r, rm, i, s.files[i].Content(), Inside(s, s.files[i].owner)))
  }

  /** removeLock's link back; it fails when the lock name is taken. */
  function LinkBack(s: State, r: Run): State
    requires CanLink(s, r)
  {
    var moved := s.dir[Private(r, s.pcs[r].rm.takeover)];
    var dir := if LockName in s.dir then s.dir else s.dir[LockName := moved];
    Log(Goto(s.(dir := dir), r, Dropping(s.pcs[r].rm, false)),
        PutBack(r, moved, dir[LockName]))
  }

  /** removeLock's last call, which takes the private name away; it returns
      `matched`, and a takeover then goes on to create its own lock. */
  function DropMoved(s: State, r: Run): State
    requires CanDrop(s, r)
  {
    var Dropping(rm, matched) := s.pcs[r];
    var i := s.dir[Private(r, rm.takeover)];
    var t := Goto(s.(dir := s.dir - {Private(r, rm.takeover)}), r, if matched && rm.takeover then Creating(1) else Finished);
    if matched then Log(t, Removed(r, rm.want, i, s.files[i].Content())) else t
  }

  predicate Enabled(s: State, st: Step) {
    match st
    case Tick(_) => true
    case Begin(r) => r !in s.pcs
    case Create(r, line, ok) => CanCreate(s, r, line)
    case Write(r, n) => CanWrite(s, r, n)
    case Close(r) => CanClose(s, r)
    case Fail(r) => r in s.pcs && s.pcs[r].Writing?
    case Abort(r) => r in s.pcs && s.pcs[r].Aborting?
    case Unlock(r) => CanUnlock(s, r)
    case Read(r, ok, same) => IsReading(s, r)
    case Rename(r, ok) => CanMove(s, r)
    case Link(r) => CanLink(s, r)
    case Drop(r) => CanDrop(s, r)
    case Crash(r) => r in s.pcs
  }

  function Next(s: State, st: Step): State
    requires Enabled(s, st)
  {
    match st
    case Tick(d) => s.(clock := s.clock + d)
    case Begin(r) => Begun(s, r)
    case Create(r, line, ok) => CreateLock(s, r, line, ok)
    case Write(r, n) => WriteLine(s, r, n)
    case Close(r) => Goto(s, r, Holding)
    case Fail(r) => Goto(s, r, Aborting)
    case Abort(r) => AbortCreate(s, r)
    case Unlock(r) => Goto(s, r, Unlocking(s, r))
    case Read(r, ok, same) => ReadStep(s, r, ok, same)
    case Rename(r, ok) => MoveAside(s, r, ok)
    case Link(r) => LinkBack(s, r)
    case Drop(r) => DropMoved(s, r)
    case Crash(r) => Goto(s, r, Dead)
  }

  /** The states of one interleaving: each is the one before it after the next
      step, of whichever run. */
  ghost predicate Behaviour(tr: seq<State>, sts: seq<Step>) {
    && |tr| == |sts| + 1 && tr[0] == INIT
    && forall i | 0 <= i < |sts| :: Enabled(tr[i], sts[i]) && tr[i + 1] == Next(tr[i], sts[i])
  }

  // -------------------------------------------------------------- invariants

  /** A complete line written so far is the whole line: newlines only end. */
  lemma CompletePrefix(f: File)
    requires Complete(f.Content()) && Complete(f.line)
    ensures f.Content() == f.line && f.written >= |f.line|
  {
    if f.written < |f.line| { NewlineInPrefix(f.line, f.written); }
  }

  lemma {:induction false} NewlineInPrefix(c: Line, n: nat)
    requires n <= |c| && NewlineIn(c[..n]) < n
    ensures NewlineIn(c) == NewlineIn(c[..n])
  {
    if c[0] != NEWLINE {
      assert c[..n][1..] == c[1..][..n - 1];
      NewlineInPrefix(c[1..], n - 1);
    }
  }

  /** A run that only moves on in its own code, keeping or giving up its
      private name. */
  lemma WellFormedGoto(s: State, r: Run, pc: Pc)
    requires WellFormed(s) && r in s.pcs
    requires PcOk(s.files, s.lines, s.owns, r, pc) && PrivateOk(s.dir, s.files, s.lines, r, pc)
    ensures WellFormed(Goto(s, r, pc))
  {}

  /** removeLock's last call takes one private name away and ends, or goes on
      to create a lock. */
  lemma DropFrame(s: State, r: Run)
    requires CanDrop(s, r)
    ensures
      var t := DropMoved(s, r);
      && t == s.(dir := t.dir, pcs := s.pcs[r := t.pcs[r]], log := t.log)
      && (forall e | e in t.log && e !in s.log :: e.Removed?)
      && (t.pcs[r].Creating? || t.pcs[r].Finished?)
      && t.dir == s.dir - {Private(r, s.pcs[r].rm.takeover)}
  {}

  /** A read changes nothing but the reader's program counter. */
  lemma ReadFrame(s: State, r: Run, ok: bool, same: bool)
    requires IsReading(s, r)
    ensures
      var t := ReadStep(s, r, ok, same);
      && t == s.(pcs := s.pcs[r := ReadPc(s, r, ok, same)], log := t.log)
      && (forall e | e in s.log :: e in t.log)
  {}

  /** Reading never leads a run inside; it leads out of reading only to a
      takeover, to removeLock's next call, or to the end. */
  lemma ReadLeadsTo(s: State, r: Run, ok: bool, same: bool)
    requires IsReading(s, r)
    ensures
      var pc, next := s.pcs[r], ReadPc(s, r, ok, same);
      && !InsidePc(next)
      && (Keeps(next) ==> Keeps(pc))
      && (TakesOver(next) ==> TakesOver(pc) || (pc.Inspecting? && next.Checking?))
  {}

  /** What a reader reads is a prefix of a line, so a complete one is the line
      of that file, in full. */
  lemma ReadIsLine(s: State, i: Ino)
    requires WellFormed(s) && i in s.files && Complete(s.files[i].Content())
    ensures var c := s.files[i].Content(); c in s.lines && s.lines[c] == i && Written(s.files, i, c)
  {
    CompletePrefix(s.files[i]);
  }

  lemma InspectingIsOk(s: State, r: Run, ok: bool, same: bool)
    requires WellFormed(s) && IsReading(s, r) && s.pcs[r].Inspecting?
    ensures PcOk(s.files, s.lines, s.owns, r, ReadPc(s, r, ok, same))
    ensures PrivateOk(s.dir, s.files, s.lines, r, ReadPc(s, r, ok, same))
  {
    var rd := s.pcs[r].rd;
    assert PcOk(s.files, s.lines, s.owns, r, s.pcs[r]);
    if rd.AtRead? && Complete(s.files[rd.ino].Content()) { ReadIsLine(s, rd.ino); }
  }

  lemma CheckingIsOk(s: State, r: Run, ok: bool, same: bool)
    requires WellFormed(s) && IsReading(s, r) && s.pcs[r].Checking?
    ensures PcOk(s.files, s.lines, s.owns, r, ReadPc(s, r, ok, same))
    ensures PrivateOk(s.dir, s.files, s.lines, r, ReadPc(s, r, ok, same))
  {
    assert PcOk(s.files, s.lines, s.owns, r, s.pcs[r]);
  }

  lemma VerifyingIsOk(s: State, r: Run, ok: bool, same: bool)
    requires WellFormed(s) && IsReading(s, r) && s.pcs[r].Verifying?
    ensures PcOk(s.files, s.lines, s.owns, r, ReadPc(s, r, ok, same))
    ensures PrivateOk(s.dir, s.files, s.lines, r, ReadPc(s, r, ok, same))
  {
    var rd := s.pcs[r].rd;
    assert PcOk(s.files, s.lines, s.owns, r, s.pcs[r]) && PrivateOk(s.dir, s.files, s.lines, r, s.pcs[r]);
    if rd.AtRead? && Complete(s.files[rd.ino].Content()) { ReadIsLine(s, rd.ino); }
  }

  lemma WellFormedRead(s: State, r: Run, ok: bool, same: bool)
    requires WellFormed(s) && IsReading(s, r)
    ensures WellFormed(ReadStep(s, r, ok, same))
  {
    match s.pcs[r] {
      case Inspecting(_, _) => InspectingIsOk(s, r, ok, same);
      case Checking(_, _) => CheckingIsOk(s, r, ok, same);
      case _ => VerifyingIsOk(s, r, ok, same);
    }
    WellFormedGoto(s, r, ReadPc(s, r, ok, same));
  }

  lemma WellFormedWrite(s: State, r: Run, n: nat)
    requires WellFormed(s) && CanWrite(s, r, n)
    ensures WellFormed(WriteLine(s, r, n))
  {
    var t := WriteLine(s, r, n);
    var w := s.owns[r];
    forall q | q in t.pcs ensures PcOk(t.files, t.lines, t.owns, q, t.pcs[q]) && PrivateOk(t.dir, t.files, t.lines, q, t.pcs[q]) {
      assert PcOk(s.files, s.lines, s.owns, q, s.pcs[q]) && PrivateOk(s.dir, s.files, s.lines, q, s.pcs[q]);
    }
  }

  lemma FilesOkCreate(s: State, r: Run, line: Line)
    requires FilesOk(s.files, s.lines, s.owns, s.nextIno) && OwnsOk(s.files, s.owns)
    requires Complete(line) && line !in s.lines && r !in s.owns
    ensures
      var files := s.files[s.nextIno := File(r, line, 0, s.clock)];
      var owns := s.owns[r := s.nextIno];
      FilesOk(files, s.lines[line := s.nextIno], owns, s.nextIno + 1) && OwnsOk(files, owns)
  {}

  lemma RunsOkCreate(s: State, r: Run, line: Line)
    requires RunsOk(s.dir, s.files, s.lines, s.owns, s.pcs) && s.nextIno !in s.files
    requires line !in s.lines && r !in s.owns
    requires forall q | q in s.owns :: s.owns[q] in s.files
    ensures RunsOk(s.dir, s.files[s.nextIno := File(r, line, 0, s.clock)], s.lines[line := s.nextIno],
                   s.owns[r := s.nextIno], s.pcs[r := Writing])
  {
    var files, lines, owns, pcs := s.files[s.nextIno := File(r, line, 0, s.clock)], s.lines[line := s.nextIno],
                                   s.owns[r := s.nextIno], s.pcs[r := Writing];
    forall q | q in pcs ensures PcOk(files, lines, owns, q, pcs[q]) && PrivateOk(s.dir, files, lines, q, pcs[q]) {
      if q != r {
        assert PcOk(s.files, s.lines, s.owns, q, s.pcs[q]) && PrivateOk(s.dir, s.files, s.lines, q, s.pcs[q]);
      }
    }
  }

  lemma WellFormedCreate(s: State, r: Run, line: Line, ok: bool)
    requires WellFormed(s) && CanCreate(s, r, line)
    ensures WellFormed(CreateLock(s, r, line, ok))
  {
    var t := CreateLock(s, r, line, ok);
    assert PcOk(s.files, s.lines, s.owns, r, s.pcs[r]);
    if !ok || LockName in s.dir {
      WellFormedGoto(s, r, t.pcs[r]);
    } else {
      var u := t.(dir := s.dir);
      FilesOkCreate(s, r, line);
      RunsOkCreate(s, r, line);
      assert WellFormed(u);
      WellFormedName(u, LockName, s.nextIno);
    }
  }

  lemma WellFormedBegin(s: State, r: Run)
    requires WellFormed(s) && r !in s.pcs
    ensures WellFormed(Begun(s, r))
  {}

  /** Taking a name away that no run counts on. */
  lemma WellFormedUnlink(s: State, name: Name)
    requires WellFormed(s)
    requires forall q | q in s.pcs && HasMoved(s.pcs[q]) :: Private(q, s.pcs[q].rm.takeover) != name
    ensures WellFormed(s.(dir := s.dir - {name}))
  {}

  /** Giving a file a name no run counts on. */
  lemma WellFormedName(s: State, name: Name, ino: Ino)
    requires WellFormed(s) && ino in s.files
    requires forall q | q in s.pcs && HasMoved(s.pcs[q]) :: Private(q, s.pcs[q].rm.takeover) != name
    ensures WellFormed(s.(dir := s.dir[name := ino]))
  {}

  lemma WellFormedAbort(s: State, r: Run)
    requires WellFormed(s) && r in s.pcs
    ensures WellFormed(AbortCreate(s, r))
  {
    WellFormedUnlink(s, LockName);
    WellFormedGoto(s.(dir := s.dir - {LockName}), r, Finished);
  }

  lemma WellFormedRename(s: State, r: Run, ok: bool)
    requires WellFormed(s) && CanMove(s, r)
    ensures WellFormed(MoveAside(s, r, ok))
  {
    if !ok || LockName !in s.dir {
      WellFormedGoto(s, r, Finished);
    } else {
      var rm, i := s.pcs[r].rm, s.dir[LockName];
      var a := s.(dir := s.dir - {LockName});
      WellFormedUnlink(s, LockName);
      WellFormedName(a, Private(r, rm.takeover), i);
      var b := a.(dir := a.dir[Private(r, rm.takeover) := i]);
      assert PcOk(b.files, b.lines, b.owns, r, b.pcs[r]);
      WellFormedGoto(b, r, Verifying(rm, AtLstat));
    }
  }

  lemma WellFormedLink(s: State, r: Run)
    requires WellFormed(s) && CanLink(s, r)
    ensures WellFormed(LinkBack(s, r))
  {
    var moved := s.dir[Private(r, s.pcs[r].rm.takeover)];
    var pc := Dropping(s.pcs[r].rm, false);
    WellFormedGoto(s, r, pc);
    if LockName !in s.dir { WellFormedName(Goto(s, r, pc), LockName, moved); }
  }

  lemma WellFormedDrop(s: State, r: Run)
    requires WellFormed(s) && CanDrop(s, r)
    ensures WellFormed(DropMoved(s, r))
  {
    var Dropping(rm, matched) := s.pcs[r];
    var pc := if matched && rm.takeover then Creating(1) else Finished;
    assert PcOk(s.files, s.lines, s.owns, r, s.pcs[r]);
    WellFormedGoto(s, r, pc);
    WellFormedUnlink(Goto(s, r, pc), Private(r, rm.takeover));
  }

  lemma StepKeepsWellFormed(s: State, st: Step)
    requires WellFormed(s) && Enabled(s, st)
    ensures WellFormed(Next(s, st))
  {
    match st
    case Tick(d) =>
    case Begin(r) => WellFormedBegin(s, r);
    case Create(r, line, ok) => WellFormedCreate(s, r, line, ok);
    case Write(r, n) => WellFormedWrite(s, r, n);
    case Close(r) => WellFormedGoto(s, r, Holding);
    case Fail(r) => WellFormedGoto(s, r, Aborting);
    case Abort(r) => WellFormedAbort(s, r);
    case Unlock(r) => WellFormedGoto(s, r, Unlocking(s, r));
    case Read(r, ok, same) => WellFormedRead(s, r, ok, same);
    case Rename(r, ok) => WellFormedRename(s, r, ok);
    case Link(r) => WellFormedLink(s, r);
    case Drop(r) => WellFormedDrop(s, r);
    case Crash(r) => WellFormedGoto(s, r, Dead);
  }

  // -------------------------------------------------------- mutual exclusion

  /** How exclusion is lost: a rename moved the lock of a run still inside. */
  predicate IsRace(e: Event) { e.Renamed? && e.ownerInside }

  predicate Raced(s: State) { exists e | e in s.log :: IsRace(e) }

  predicate AgedOut(s: State) { HasStale(s.log) }

  predicate HasStale(log: seq<Event>) { exists e | e in log :: e.FoundStale? }

  ghost predicate InsideOwnsLock(s: State) {
    forall r | Inside(s, r) :: r in s.owns && LockName in s.dir && s.dir[LockName] == s.owns[r]
  }

  ghost predicate Exclusive(s: State) {
    forall q, r | Inside(s, q) && Inside(s, r) :: q == r
  }

  lemma LogGrows(s: State, st: Step)
    requires Enabled(s, st)
    ensures forall e | e in s.log :: e in Next(s, st).log
  {}

  /** Which steps log what. */
  lemma NewEvents(s: State, st: Step, e: Event)
    requires Enabled(s, st) && e in Next(s, st).log && e !in s.log
    ensures (e.Renamed? ==> st.Rename?) && (e.FoundStale? ==> st.Read?) && (e.Aborted? ==> st.Abort? && st.run == e.run)
  {
    match st
    case Read(r, ok, same) => ReadLogs(s, r, ok, same, e);
    case Rename(_, _) =>
    case Abort(_) =>
    case Link(_) =>
    case Drop(r) => DropFrame(s, r);
    case _ => OthersLogNothing(s, st);
  }

  lemma ReadLogs(s: State, r: Run, ok: bool, same: bool, e: Event)
    requires IsReading(s, r) && e in ReadStep(s, r, ok, same).log && e !in s.log
    ensures e.FoundStale?
  {}

  lemma OthersLogNothing(s: State, st: Step)
    requires Enabled(s, st) && !st.Read? && !st.Rename? && !st.Abort? && !st.Link? && !st.Drop?
    ensures Next(s, st).log == s.log
  {}

  /** Two files with the same complete line in them are one file. */
  lemma LineTellsFile(s: State, i: Ino, j: Ino)
    requires WellFormed(s) && i in s.files && j in s.files
    requires Written(s.files, j, s.files[i].Content()) && Complete(s.files[i].Content())
    ensures i == j
  {
    CompletePrefix(s.files[i]);
  }

  lemma RenameKeepsLock(s: State, r: Run, ok: bool)
    requires WellFormed(s) && CanMove(s, r)
    requires InsideOwnsLock(s) && !Raced(MoveAside(s, r, ok))
    ensures InsideOwnsLock(MoveAside(s, r, ok))
  {
    var t := MoveAside(s, r, ok);
    if ok && LockName in s.dir {
      var rm, i := s.pcs[r].rm, s.dir[LockName];
      var e := Renamed(r, rm, i, s.files[i].Content(), Inside(s, s.files[i].owner));
      assert e in t.log && !IsRace(e);
      assert !Inside(s, s.files[i].owner) && forall q :: Inside(s, q) ==> q == s.files[i].owner;
      assert forall q | Inside(t, q) :: Inside(s, q);
    } else {
      assert forall q | Inside(t, q) :: Inside(s, q);
    }
  }

  lemma ReadKeepsLock(s: State, r: Run, ok: bool, same: bool)
    requires IsReading(s, r) && InsideOwnsLock(s)
    ensures InsideOwnsLock(ReadStep(s, r, ok, same))
  {
    var t := ReadStep(s, r, ok, same);
    ReadFrame(s, r, ok, same);
    ReadLeadsTo(s, r, ok, same);
    forall q | Inside(t, q) ensures q in t.owns && LockName in t.dir && t.dir[LockName] == t.owns[q] {
      assert Inside(s, q);
    }
  }

  lemma CreateKeepsLock(s: State, r: Run, line: Line, ok: bool)
    requires WellFormed(s) && CanCreate(s, r, line) && InsideOwnsLock(s)
    ensures InsideOwnsLock(CreateLock(s, r, line, ok))
  {
    var t := CreateLock(s, r, line, ok);
    forall q | Inside(t, q) && q != r ensures q in t.owns && LockName in t.dir && t.dir[LockName] == t.owns[q] {
      assert Inside(s, q);
    }
  }

  lemma AbortKeepsLock(s: State, r: Run)
    requires WellFormed(s) && r in s.pcs && s.pcs[r].Aborting? && InsideOwnsLock(s)
    ensures InsideOwnsLock(AbortCreate(s, r))
    ensures LockName in s.dir && r in s.owns && s.dir[LockName] == s.owns[r]
  {
    assert Inside(s, r);
    forall q | Inside(s, q) ensures q == r { assert s.files[s.owns[q]].owner == q; }
    assert forall q | Inside(AbortCreate(s, r), q) :: Inside(s, q) && q != r;
  }

  lemma LinkKeepsLock(s: State, r: Run)
    requires CanLink(s, r) && InsideOwnsLock(s)
    ensures InsideOwnsLock(LinkBack(s, r))
  {
    forall q | Inside(LinkBack(s, r), q) ensures Inside(s, q) {}
  }

  lemma DropKeepsLock(s: State, r: Run)
    requires CanDrop(s, r) && InsideOwnsLock(s)
    ensures InsideOwnsLock(DropMoved(s, r))
  {
    DropFrame(s, r);
    forall q | Inside(DropMoved(s, r), q) ensures Inside(s, q) {}
  }

  /** A run that moves on in its own code, entering nothing. */
  lemma GotoKeepsLock(s: State, r: Run, pc: Pc)
    requires r in s.pcs && InsideOwnsLock(s) && (InsidePc(pc) ==> Inside(s, r))
    ensures InsideOwnsLock(Goto(s, r, pc))
  {
    forall q | Inside(Goto(s, r, pc), q) ensures Inside(s, q) {}
  }

  lemma StepKeepsLock(s: State, st: Step)
    requires WellFormed(s) && Enabled(s, st) && InsideOwnsLock(s) && !Raced(Next(s, st))
    ensures InsideOwnsLock(Next(s, st))
  {
    match st
    case Tick(_) => assert forall q | Inside(Next(s, st), q) :: Inside(s, q);
    case Begin(r) => assert forall q | Inside(Next(s, st), q) :: Inside(s, q);
    case Create(r, line, ok) => CreateKeepsLock(s, r, line, ok);
    case Write(r, n) => assert forall q | Inside(Next(s, st), q) :: Inside(s, q);
    case Close(r) => GotoKeepsLock(s, r, Holding);
    case Fail(r) => GotoKeepsLock(s, r, Aborting);
    case Abort(r) => AbortKeepsLock(s, r);
    case Unlock(r) => GotoKeepsLock(s, r, Unlocking(s, r));
    case Read(r, ok, same) => ReadKeepsLock(s, r, ok, same);
    case Rename(r, ok) => RenameKeepsLock(s, r, ok);
    case Link(r) => LinkKeepsLock(s, r);
    case Drop(r) => DropKeepsLock(s, r);
    case Crash(r) => GotoKeepsLock(s, r, Dead);
  }

  /** One run inside at a time: two would own the one file the lock name
      leads to. */
  lemma OwningIsExclusive(s: State)
    requires WellFormed(s) && InsideOwnsLock(s)
    ensures Exclusive(s)
  {
    forall q, r | Inside(s, q) && Inside(s, r) ensures q == r {
      assert s.owns[q] == s.owns[r] && s.files[s.owns[q]].owner == q;
    }
  }

  // --------------------------------------------------- without a stale lock

  /** A run whose file the lock name must lead to: one inside, or one whose
      unlock has not moved its lock yet. */
  predicate Keeps(pc: Pc) { InsidePc(pc) || ((pc.Checking? || pc.Renaming?) && !pc.rm.takeover) }

  predicate TakesOver(pc: Pc) { RemovalOf(pc).Some? && RemovalOf(pc).value.takeover }

  /** Nobody takes over: a run keeps the lock name from its create to its own
      unlock's rename. */
  ghost predicate NoTakeover(s: State) {
    && (forall r | r in s.pcs :: !TakesOver(s.pcs[r]))
    && (forall r | r in s.pcs && Keeps(s.pcs[r]) :: r in s.owns && LockName in s.dir && s.dir[LockName] == s.owns[r])
  }

  /** Then the file the lock name leads to tells the run that keeps it. */
  lemma KeeperIsUnique(s: State, r: Run)
    requires WellFormed(s) && NoTakeover(s) && r in s.pcs && Keeps(s.pcs[r])
    ensures forall q | q in s.pcs && Keeps(s.pcs[q]) :: q == r
  {
    forall q | q in s.pcs && Keeps(s.pcs[q]) ensures q == r { assert s.files[s.owns[q]].owner == q; }
  }

  lemma GotoNoTakeover(s: State, r: Run, pc: Pc)
    requires r in s.pcs && NoTakeover(s) && !TakesOver(pc) && (Keeps(pc) ==> Keeps(s.pcs[r]))
    ensures NoTakeover(Goto(s, r, pc))
  {}

  lemma TakeoverIsLogged(s: State, r: Run, ok: bool, same: bool)
    requires IsReading(s, r)
    ensures s.pcs[r].Inspecting? && ReadPc(s, r, ok, same).Checking? ==> AgedOut(ReadStep(s, r, ok, same))
  {
    if s.pcs[r].Inspecting? && ReadPc(s, r, ok, same).Checking? {
      assert FoundStale(r, StaleAge(s, r)) in ReadStep(s, r, ok, same).log;
    }
  }

  lemma ReadNoTakeover(s: State, r: Run, ok: bool, same: bool)
    requires IsReading(s, r) && NoTakeover(s) && !AgedOut(ReadStep(s, r, ok, same))
    ensures NoTakeover(ReadStep(s, r, ok, same))
  {
    TakeoverIsLogged(s, r, ok, same);
    ReadFrame(s, r, ok, same);
    ReadLeadsTo(s, r, ok, same);
    GotoNoTakeover(s, r, ReadPc(s, r, ok, same));
  }

  lemma CreateNoTakeover(s: State, r: Run, line: Line, ok: bool)
    requires WellFormed(s) && CanCreate(s, r, line) && NoTakeover(s)
    ensures NoTakeover(CreateLock(s, r, line, ok))
  {}

  lemma AbortNoTakeover(s: State, r: Run)
    requires WellFormed(s) && r in s.pcs && s.pcs[r].Aborting? && NoTakeover(s)
    ensures NoTakeover(AbortCreate(s, r))
  {
    KeeperIsUnique(s, r);
  }

  lemma RenameNoTakeover(s: State, r: Run, ok: bool)
    requires WellFormed(s) && CanMove(s, r) && NoTakeover(s) && !Raced(s)
    ensures NoTakeover(MoveAside(s, r, ok)) && !Raced(MoveAside(s, r, ok))
  {
    assert PcOk(s.files, s.lines, s.owns, r, s.pcs[r]);
    KeeperIsUnique(s, r);
  }

  lemma LinkNoTakeover(s: State, r: Run)
    requires CanLink(s, r) && NoTakeover(s)
    ensures NoTakeover(LinkBack(s, r))
  {}

  lemma DropNoTakeover(s: State, r: Run)
    requires CanDrop(s, r) && NoTakeover(s)
    ensures NoTakeover(DropMoved(s, r))
  {
    DropFrame(s, r);
  }

  /** As long as no run ever finds a lock too old, nothing is taken over and no
      rename races: so exclusion is lost only through a lock older than
      LOCK_MAX_AGE. */
  lemma StepWithoutStale(s: State, st: Step)
    requires WellFormed(s) && Enabled(s, st) && NoTakeover(s) && !Raced(s) && !AgedOut(Next(s, st))
    ensures NoTakeover(Next(s, st)) && !Raced(Next(s, st))
  {
    if st.Rename? {
      RenameNoTakeover(s, st.run, st.ok);
    } else {
      forall e | e in Next(s, st).log ensures !IsRace(e) {
        if e !in s.log { NewEvents(s, st, e); }
      }
      StepNoTakeover(s, st);
    }
  }

  lemma StepNoTakeover(s: State, st: Step)
    requires WellFormed(s) && Enabled(s, st) && NoTakeover(s) && !AgedOut(Next(s, st)) && !st.Rename?
    ensures NoTakeover(Next(s, st))
  {
    match st
    case Tick(_) =>
    case Begin(r) =>
    case Write(r, n) => assert Next(s, st).pcs == s.pcs && Next(s, st).dir == s.dir && Next(s, st).owns == s.owns;
    case Create(r, line, ok) => CreateNoTakeover(s, r, line, ok);
    case Close(r) => GotoNoTakeover(s, r, Holding);
    case Fail(r) => GotoNoTakeover(s, r, Aborting);
    case Abort(r) => AbortNoTakeover(s, r);
    case Unlock(r) => GotoNoTakeover(s, r, Unlocking(s, r));
    case Read(r, ok, same) => ReadNoTakeover(s, r, ok, same);
    case Link(r) => LinkNoTakeover(s, r);
    case Drop(r) => DropNoTakeover(s, r);
    case Crash(r) => GotoNoTakeover(s, r, Dead);
  }

  predicate InWritingPc(pcs: map<Run, Pc>, r: Run) { r in pcs && pcs[r].Writing? }

  /** The lock can be taken over: it is older than LOCK_MAX_AGE, and complete, or
      its creator may still complete it. */
  predicate Takeable(s: State) {
    && LockName in s.dir && s.dir[LockName] in s.files
    && s.clock - s.files[s.dir[LockName]].mtime > LOCK_MAX_AGE
    && (Complete(s.files[s.dir[LockName]].Content()) || InWritingPc(s.pcs, s.files[s.dir[LockName]].owner))
  }

  /** The lock, when there is one that is or can become complete, is at most
      LOCK_MAX_AGE old. */
  predicate Timely(s: State) { !Takeable(s) }

  /** The file will never be a complete lock. */
  predicate Abandoned(s: State, i: Ino) {
    i in s.files && !Complete(s.files[i].Content()) && !InWritingPc(s.pcs, s.files[i].owner)
  }

  /** What lock() has read so far is not too old for it, or never complete. */
  ghost predicate FreshReads(s: State) {
    forall r | r in s.pcs && r in s.nows ::
      && s.nows[r] <= s.clock
      && (s.pcs[r].Inspecting? && s.pcs[r].rd.AtRead? ==>
            s.nows[r] - s.pcs[r].rd.mtime <= LOCK_MAX_AGE || Abandoned(s, s.pcs[r].rd.ino))
  }

  /** A file nobody writes any more stays as it is. */
  lemma StillAbandoned(s: State, t: State, i: Ino)
    requires Abandoned(s, i) && i in t.files && t.files[i] == s.files[i]
    requires InWritingPc(t.pcs, s.files[i].owner) ==> InWritingPc(s.pcs, s.files[i].owner)
    ensures Abandoned(t, i)
  {}

  lemma WriteKeepsAbandoned(s: State, r: Run, n: nat, i: Ino)
    requires WellFormed(s) && CanWrite(s, r, n) && Abandoned(s, i)
    ensures Abandoned(WriteLine(s, r, n), i)
  {
    assert s.owns[r] != i;
    StillAbandoned(s, WriteLine(s, r, n), i);
  }

  lemma CreateKeepsAbandoned(s: State, r: Run, line: Line, ok: bool, i: Ino)
    requires WellFormed(s) && CanCreate(s, r, line) && Abandoned(s, i)
    ensures Abandoned(CreateLock(s, r, line, ok), i)
  {
    assert PcOk(s.files, s.lines, s.owns, r, s.pcs[r]);
    assert s.files[i].owner != r && i != s.nextIno;
    StillAbandoned(s, CreateLock(s, r, line, ok), i);
  }

  lemma StaysAbandoned(s: State, st: Step, i: Ino)
    requires WellFormed(s) && Enabled(s, st) && Abandoned(s, i)
    ensures Abandoned(Next(s, st), i)
  {
    if st.Create? {
      CreateKeepsAbandoned(s, st.run, st.line, st.ok, i);
    } else if st.Write? {
      WriteKeepsAbandoned(s, st.run, st.n, i);
    } else {
      OthersKeepFiles(s, st);
      NobodyWrites(s, st, s.files[i].owner);
      StillAbandoned(s, Next(s, st), i);
    }
  }

  /** Only a create leads to writing. */
  lemma NobodyWrites(s: State, st: Step, r: Run)
    requires Enabled(s, st) && !st.Create? && !InWritingPc(s.pcs, r)
    ensures !InWritingPc(Next(s, st).pcs, r)
  {
    match st
    case Read(q, ok, same) => ReadFrame(s, q, ok, same); ReadLeadsTo(s, q, ok, same);
    case Drop(q) => DropFrame(s, q);
    case _ =>
  }

  /** What a read of the lock finds is fresh, too. */
  lemma ReadsFresh(s: State, r: Run, ok: bool, same: bool)
    requires WellFormed(s) && IsReading(s, r) && Timely(s) && FreshReads(s) && s.pcs[r].Inspecting?
    ensures var pc := ReadPc(s, r, ok, same);
      && !pc.Checking?
      && (pc.Inspecting? && pc.rd.AtRead? ==> s.nows[r] - pc.rd.mtime <= LOCK_MAX_AGE || Abandoned(s, pc.rd.ino))
  {
    assert s.nows[r] <= s.clock;
  }

  lemma ReadWhenTimely(s: State, r: Run, ok: bool, same: bool)
    requires WellFormed(s) && IsReading(s, r) && Timely(s) && FreshReads(s) && !AgedOut(s)
    ensures FreshReads(ReadStep(s, r, ok, same)) && !AgedOut(ReadStep(s, r, ok, same))
  {
    ReadFrame(s, r, ok, same);
    ReadLeadsTo(s, r, ok, same);
    if s.pcs[r].Inspecting? { ReadsFresh(s, r, ok, same); }
    var t := ReadStep(s, r, ok, same);
    forall q | q in t.pcs && q in t.nows && t.pcs[q].Inspecting? && t.pcs[q].rd.AtRead?
      ensures t.nows[q] - t.pcs[q].rd.mtime <= LOCK_MAX_AGE || Abandoned(t, t.pcs[q].rd.ino)
    {
      if Abandoned(s, t.pcs[q].rd.ino) { StaysAbandoned(s, Read(r, ok, same), t.pcs[q].rd.ino); }
    }
  }

  /** Only reading brings a run closer to judging a lock's age. */
  lemma OthersStayFresh(s: State, st: Step)
    requires WellFormed(s) && Enabled(s, st) && FreshReads(s) && !st.Read?
    ensures FreshReads(Next(s, st))
  {
    var t := Next(s, st);
    forall q | q in t.pcs && q in t.nows && t.pcs[q].Inspecting? && t.pcs[q].rd.AtRead?
      ensures t.nows[q] - t.pcs[q].rd.mtime <= LOCK_MAX_AGE || Abandoned(t, t.pcs[q].rd.ino)
    {
      InspectsAsBefore(s, st, q);
      if Abandoned(s, t.pcs[q].rd.ino) { StaysAbandoned(s, st, t.pcs[q].rd.ino); }
    }
    NowsStay(s, st);
  }

  lemma InspectsAsBefore(s: State, st: Step, q: Run)
    requires Enabled(s, st) && !st.Read? && q in Next(s, st).pcs && Next(s, st).pcs[q].Inspecting? && Next(s, st).pcs[q].rd.AtRead?
    requires q in Next(s, st).nows
    ensures q in s.pcs && s.pcs[q] == Next(s, st).pcs[q] && q in s.nows && s.nows[q] == Next(s, st).nows[q]
  {
    match st
    case Drop(r) => DropFrame(s, r);
    case _ =>
  }

  lemma NowsStay(s: State, st: Step)
    requires WellFormed(s) && Enabled(s, st) && FreshReads(s) && !st.Read?
    ensures forall q | q in Next(s, st).nows :: Next(s, st).nows[q] <= Next(s, st).clock
  {
    match st
    case Drop(r) => DropFrame(s, r);
    case _ =>
  }

  lemma StepWhenTimely(s: State, st: Step)
    requires WellFormed(s) && Enabled(s, st) && Timely(s) && FreshReads(s) && !AgedOut(s)
    ensures FreshReads(Next(s, st)) && !AgedOut(Next(s, st))
  {
    if st.Read? {
      ReadWhenTimely(s, st.run, st.ok, st.same);
    } else {
      OthersStayFresh(s, st);
      forall e | e in Next(s, st).log ensures !e.FoundStale? {
        if e !in s.log { NewEvents(s, st, e); }
      }
    }
  }

  // -------------------------------------------------------------- removeLock

  /** What became of a file run r's removeLock moved: it was removed, or put
      back, or r is not there yet, or died. */
  ghost predicate Accounted(s: State, r: Run, rm: Removal, ino: Ino) {
    || Removed(r, rm.want, ino, rm.want) in s.log
    || (exists holder :: PutBack(r, ino, holder) in s.log)
    || (r in s.pcs && s.pcs[r].Dead?)
    || (&& r in s.pcs && HasMoved(s.pcs[r]) && s.pcs[r].rm == rm && !(s.pcs[r].Dropping? && !s.pcs[r].matched)
        && Private(r, rm.takeover) in s.dir && s.dir[Private(r, rm.takeover)] == ino)
  }

  /** What removeLock did is what its answer says. */
  ghost predicate Honest(s: State, e: Event) {
    match e
    // It answered true: the file removed held exactly the line asked for, in
    // full, and is the one file ever given that line.
    case Removed(_, want, ino, content) =>
      Complete(want) && content == want && want in s.lines && s.lines[want] == ino
    // It moved a file: a wrong one is not the one with that line.
    case Renamed(r, rm, ino, content, _) =>
      && rm.want in s.lines && (content != rm.want ==> s.lines[rm.want] != ino)
      && Accounted(s, r, rm, ino)
    // It put a file back: the lock name leads to it, or to another run's.
    case PutBack(r, ino, holder) =>
      ino in s.files && holder in s.files && (holder == ino || s.files[holder].owner != s.files[ino].owner)
    case FoundStale(_, age) => age > LOCK_MAX_AGE
    case Aborted(_, _) => true
  }

  ghost predicate HonestLog(s: State) { forall e | e in s.log :: Honest(s, e) }

  lemma AccountedOther(s: State, t: State, r: Run, rm: Removal, ino: Ino)
    requires Accounted(s, r, rm, ino) && (forall d | d in s.log :: d in t.log)
    requires r in s.pcs ==> r in t.pcs && t.pcs[r] == s.pcs[r]
    requires Private(r, rm.takeover) in s.dir ==>
               Private(r, rm.takeover) in t.dir && t.dir[Private(r, rm.takeover)] == s.dir[Private(r, rm.takeover)]
    ensures Accounted(t, r, rm, ino)
  {}

  lemma AccountedRead(s: State, r: Run, ok: bool, same: bool, rm: Removal, ino: Ino)
    requires WellFormed(s) && IsReading(s, r) && Accounted(s, r, rm, ino)
    ensures Accounted(ReadStep(s, r, ok, same), r, rm, ino)
  {
    var t := ReadStep(s, r, ok, same);
    assert forall d | d in s.log :: d in t.log;
  }

  lemma AccountedLink(s: State, r: Run, rm: Removal, ino: Ino)
    requires WellFormed(s) && CanLink(s, r) && Accounted(s, r, rm, ino)
    ensures Accounted(LinkBack(s, r), r, rm, ino)
  {
    var t := LinkBack(s, r);
    assert forall d | d in s.log :: d in t.log;
    assert t.log[|s.log|] in t.log;
  }

  lemma AccountedDrop(s: State, r: Run, rm: Removal, ino: Ino)
    requires WellFormed(s) && CanDrop(s, r) && Accounted(s, r, rm, ino)
    ensures Accounted(DropMoved(s, r), r, rm, ino)
  {
    var t := DropMoved(s, r);
    assert forall d | d in s.log :: d in t.log;
    assert PrivateOk(s.dir, s.files, s.lines, r, s.pcs[r]);
    if s.pcs[r].matched { assert t.log[|s.log|] in t.log; }
  }

  lemma AccountedGoto(s: State, t: State, r: Run, rm: Removal, ino: Ino)
    requires Accounted(s, r, rm, ino) && (forall d | d in s.log :: d in t.log)
    requires r in s.pcs && r in t.pcs && (t.pcs[r].Dead? || (!HasMoved(s.pcs[r]) && !s.pcs[r].Dead?))
    ensures Accounted(t, r, rm, ino)
  {}

  /** A run's steps leave other runs' program counters and private names alone. */
  lemma StepFrame(s: State, st: Step, r: Run, takeover: bool)
    requires Enabled(s, st) && r in s.pcs && (st.Tick? || st.run != r)
    ensures r in Next(s, st).pcs && Next(s, st).pcs[r] == s.pcs[r]
    ensures Private(r, takeover) in s.dir ==>
              Private(r, takeover) in Next(s, st).dir && Next(s, st).dir[Private(r, takeover)] == s.dir[Private(r, takeover)]
  {
    match st
    case Create(q, line, ok) =>
    case Write(q, n) =>
    case Read(q, ok, same) => ReadFrame(s, q, ok, same);
    case Rename(q, ok) =>
    case Link(q) =>
    case Drop(q) =>
    case _ =>
  }

  lemma LocalStepKeepsAccounts(s: State, st: Step, r: Run, rm: Removal, ino: Ino)
    requires Enabled(s, st) && !st.Tick? && st.run == r && r in s.pcs && Accounted(s, r, rm, ino)
    requires !st.Read? && !st.Link? && !st.Drop?
    ensures Accounted(Next(s, st), r, rm, ino)
  {
    LogGrows(s, st);
    AccountedGoto(s, Next(s, st), r, rm, ino);
  }

  lemma OwnStepKeepsAccounts(s: State, st: Step, r: Run, rm: Removal, ino: Ino)
    requires WellFormed(s) && Enabled(s, st) && !st.Tick? && st.run == r && r in s.pcs && Accounted(s, r, rm, ino)
    ensures Accounted(Next(s, st), r, rm, ino)
  {
    match st
    case Read(_, ok, same) => AccountedRead(s, r, ok, same, rm, ino);
    case Link(_) => AccountedLink(s, r, rm, ino);
    case Drop(_) => AccountedDrop(s, r, rm, ino);
    case _ => LocalStepKeepsAccounts(s, st, r, rm, ino);
  }

  lemma StepKeepsAccounts(s: State, st: Step, r: Run, rm: Removal, ino: Ino)
    requires WellFormed(s) && Enabled(s, st) && r in s.pcs && Accounted(s, r, rm, ino)
    ensures Accounted(Next(s, st), r, rm, ino)
  {
    if st.Tick? || st.run != r {
      LogGrows(s, st);
      StepFrame(s, st, r, rm.takeover);
      AccountedOther(s, Next(s, st), r, rm, ino);
    } else {
      OwnStepKeepsAccounts(s, st, r, rm, ino);
    }
  }

  lemma CreateKeepsFiles(s: State, r: Run, line: Line, ok: bool)
    requires WellFormed(s) && CanCreate(s, r, line)
    ensures forall l | l in s.lines :: l in CreateLock(s, r, line, ok).lines && CreateLock(s, r, line, ok).lines[l] == s.lines[l]
    ensures forall i | i in s.files :: i in CreateLock(s, r, line, ok).files && CreateLock(s, r, line, ok).files[i] == s.files[i]
    ensures forall q | q in s.pcs :: q in CreateLock(s, r, line, ok).pcs
  {
    assert s.nextIno !in s.files;
  }

  lemma OthersKeepFiles(s: State, st: Step)
    requires Enabled(s, st) && !st.Create? && !st.Write?
    ensures Next(s, st).files == s.files && Next(s, st).lines == s.lines
    ensures s.pcs.Keys <= Next(s, st).pcs.Keys
  {
    match st
    case Read(r, ok, same) => ReadFrame(s, r, ok, same);
    case Drop(r) => DropFrame(s, r);
    case _ =>
  }

  /** Files keep their owner and lines their file. */
  /** Files keep their creators, and lines their files. */
  ghost predicate FilesStay(s: State, t: State) {
    && (forall line | line in s.lines :: line in t.lines && t.lines[line] == s.lines[line])
    && (forall i | i in s.files :: i in t.files && t.files[i].owner == s.files[i].owner)
  }

  lemma StepKeepsFiles(s: State, st: Step)
    requires WellFormed(s) && Enabled(s, st)
    ensures FilesStay(s, Next(s, st)) && s.pcs.Keys <= Next(s, st).pcs.Keys
  {
    match st
    case Create(r, line, ok) => CreateKeepsFiles(s, r, line, ok);
    case Write(r, n) =>
    case _ => OthersKeepFiles(s, st);
  }

  /** What a step logs is true of the state it leads to. */
  lemma NewEventIsHonest(s: State, st: Step, e: Event)
    requires WellFormed(s) && Enabled(s, st)
    requires e in Next(s, st).log && e !in s.log
    ensures Honest(Next(s, st), e)
  {
    match st
    case Rename(r, ok) => RenameIsHonest(s, r, ok);
    case Drop(r) => DropIsHonest(s, r);
    case Link(r) => LinkIsHonest(s, r);
    case Read(r, ok, same) => ReadIsHonest(s, r, ok, same);
    case Abort(r) =>
    case Create(r, line, ok) =>
    case _ =>
  }

  lemma LinkIsHonest(s: State, r: Run)
    requires WellFormed(s) && CanLink(s, r)
    ensures forall e | e in LinkBack(s, r).log && e !in s.log :: Honest(LinkBack(s, r), e)
  {}

  lemma ReadIsHonest(s: State, r: Run, ok: bool, same: bool)
    requires IsReading(s, r)
    ensures forall e | e in ReadStep(s, r, ok, same).log && e !in s.log :: Honest(ReadStep(s, r, ok, same), e)
  {}

  lemma RenameIsHonest(s: State, r: Run, ok: bool)
    requires WellFormed(s) && CanMove(s, r)
    ensures forall e | e in MoveAside(s, r, ok).log && e !in s.log :: Honest(MoveAside(s, r, ok), e)
  {
    assert PcOk(s.files, s.lines, s.owns, r, s.pcs[r]);
  }

  lemma DropIsHonest(s: State, r: Run)
    requires WellFormed(s) && CanDrop(s, r)
    ensures forall e | e in DropMoved(s, r).log && e !in s.log :: Honest(DropMoved(s, r), e)
  {
    assert PcOk(s.files, s.lines, s.owns, r, s.pcs[r]) && PrivateOk(s.dir, s.files, s.lines, r, s.pcs[r]);
    var i := s.dir[Private(r, s.pcs[r].rm.takeover)];
    if s.pcs[r].matched { LineTellsFile(s, i, s.lines[s.pcs[r].rm.want]); }
  }

  lemma StaysHonest(s: State, t: State, e: Event)
    requires Honest(s, e) && FilesStay(s, t) && (e.Renamed? ==> Accounted(t, e.run, e.rm, e.ino))
    ensures Honest(t, e)
  {}

  lemma StepKeepsHonesty(s: State, st: Step)
    requires WellFormed(s) && Enabled(s, st) && HonestLog(s)
    requires forall e | e in s.log && e.Renamed? :: e.run in s.pcs
    ensures HonestLog(Next(s, st))
    ensures forall e | e in Next(s, st).log && e.Renamed? :: e.run in Next(s, st).pcs
  {
    var t := Next(s, st);
    StepKeepsFiles(s, st);
    LogGrows(s, st);
    KeepsHonesty(s, st, t);
  }

  lemma KeepsHonesty(s: State, st: Step, t: State)
    requires WellFormed(s) && Enabled(s, st) && HonestLog(s) && t == Next(s, st) && FilesStay(s, t) && s.pcs.Keys <= t.pcs.Keys
    requires forall e | e in s.log && e.Renamed? :: e.run in s.pcs
    ensures HonestLog(t) && forall e | e in t.log && e.Renamed? :: e.run in t.pcs
  {
    forall e | e in t.log ensures Honest(t, e) && (e.Renamed? ==> e.run in t.pcs) {
      if e in s.log {
        assert Honest(s, e);
        if e.Renamed? { StepKeepsAccounts(s, st, e.run, e.rm, e.ino); }
        StaysHonest(s, t, e);
      } else {
        NewEventIsHonest(s, st, e);
      }
    }
  }

  // --------------------------------------------------------------- theorems

  lemma {:induction false} AlwaysWellFormed(tr: seq<State>, sts: seq<Step>, i: nat)
    requires Behaviour(tr, sts) && i < |tr|
    ensures WellFormed(tr[i])
  {
    if i > 0 {
      AlwaysWellFormed(tr, sts, i - 1);
      assert tr[i] == Next(tr[i - 1], sts[i - 1]);
      StepKeepsWellFormed(tr[i - 1], sts[i - 1]);
    }
  }

  lemma {:induction false} OwnsUnlessRaced(tr: seq<State>, sts: seq<Step>, i: nat)
    requires Behaviour(tr, sts) && i < |tr|
    ensures Raced(tr[i]) || InsideOwnsLock(tr[i])
  {
    if i > 0 {
      OwnsUnlessRaced(tr, sts, i - 1);
      AlwaysWellFormed(tr, sts, i - 1);
      assert tr[i] == Next(tr[i - 1], sts[i - 1]);
      LogGrows(tr[i - 1], sts[i - 1]);
      if !Raced(tr[i]) { StepKeepsLock(tr[i - 1], sts[i - 1]); }
    }
  }

  /** Mutual exclusion, in every interleaving of any number of runs: at most
      one run is inside, unless an earlier rename moved the lock of a run still
      inside. */
  lemma ExclusiveUnlessRaced(tr: seq<State>, sts: seq<Step>, i: nat)
    requires Behaviour(tr, sts) && i < |tr|
    ensures Exclusive(tr[i]) || Raced(tr[i])
  {
    AlwaysWellFormed(tr, sts, i);
    OwnsUnlessRaced(tr, sts, i);
    if !Raced(tr[i]) { OwningIsExclusive(tr[i]); }
  }

  lemma {:induction false} QuietUntilStale(tr: seq<State>, sts: seq<Step>, i: nat)
    requires Behaviour(tr, sts) && i < |tr|
    ensures AgedOut(tr[i]) || (NoTakeover(tr[i]) && !Raced(tr[i]))
  {
    if i > 0 {
      QuietUntilStale(tr, sts, i - 1);
      AlwaysWellFormed(tr, sts, i - 1);
      assert tr[i] == Next(tr[i - 1], sts[i - 1]);
      LogGrows(tr[i - 1], sts[i - 1]);
      if !AgedOut(tr[i]) { StepWithoutStale(tr[i - 1], sts[i - 1]); }
    }
  }

  lemma {:induction false} FreshWhileTimely(tr: seq<State>, sts: seq<Step>, i: nat)
    requires Behaviour(tr, sts) && i < |tr| && forall k | 0 <= k < i :: Timely(tr[k])
    ensures FreshReads(tr[i]) && !AgedOut(tr[i])
  {
    if i > 0 {
      FreshWhileTimely(tr, sts, i - 1);
      AlwaysWellFormed(tr, sts, i - 1);
      assert tr[i] == Next(tr[i - 1], sts[i - 1]);
      StepWhenTimely(tr[i - 1], sts[i - 1]);
    }
  }

  /** When no lock can ever be taken over (none that is or can become complete
      stays longer than LOCK_MAX_AGE), there is exclusion, nothing is taken over,
      and no rename races. */
  lemma ExclusiveWhenTimely(tr: seq<State>, sts: seq<Step>, i: nat)
    requires Behaviour(tr, sts) && i < |tr| && forall k | 0 <= k < i :: Timely(tr[k])
    ensures Exclusive(tr[i]) && NoTakeover(tr[i]) && !Raced(tr[i])
  {
    FreshWhileTimely(tr, sts, i);
    QuietUntilStale(tr, sts, i);
    ExclusiveUnlessRaced(tr, sts, i);
  }

  lemma {:induction false} AlwaysHonest(tr: seq<State>, sts: seq<Step>, i: nat)
    requires Behaviour(tr, sts) && i < |tr|
    ensures HonestLog(tr[i]) && forall e | e in tr[i].log && e.Renamed? :: e.run in tr[i].pcs
  {
    if i > 0 {
      AlwaysHonest(tr, sts, i - 1);
      AlwaysWellFormed(tr, sts, i - 1);
      assert tr[i] == Next(tr[i - 1], sts[i - 1]);
      StepKeepsHonesty(tr[i - 1], sts[i - 1]);
    }
  }

  /** Every race was preceded by a run that found a lock older than
      LOCK_MAX_AGE. */
  lemma RaceNeedsStaleLock(tr: seq<State>, sts: seq<Step>, i: nat)
    requires Behaviour(tr, sts) && i < |tr| && Raced(tr[i])
    ensures exists e | e in tr[i].log :: e.FoundStale? && e.age > LOCK_MAX_AGE
  {
    QuietUntilStale(tr, sts, i);
    AlwaysHonest(tr, sts, i);
    var e :| e in tr[i].log && e.FoundStale?;
    assert Honest(tr[i], e);
  }

  /** removeLock answers true only after removing a file whose whole content
      was the (complete) line asked for; every file it moved was either that
      one, removed, or put back, unless its run is still at it or died; a file
      moved by mistake is never the one removed for `want`. */
  lemma RemoveLockIsHonest(tr: seq<State>, sts: seq<Step>, i: nat, e: Event)
    requires Behaviour(tr, sts) && i < |tr| && e in tr[i].log
    ensures e.Removed? ==> Complete(e.want) && e.content == e.want
    ensures e.Renamed? ==>
              && e.run in tr[i].pcs
              && (|| HasMoved(tr[i].pcs[e.run]) || tr[i].pcs[e.run].Dead?
                  || (e.content == e.rm.want && Removed(e.run, e.rm.want, e.ino, e.rm.want) in tr[i].log)
                  || exists holder :: PutBack(e.run, e.ino, holder) in tr[i].log)
    ensures e.Renamed? && e.content != e.rm.want ==>
              forall c :: Removed(e.run, e.rm.want, e.ino, c) !in tr[i].log
    ensures e.PutBack? ==>
              && e.holder in tr[i].files && e.ino in tr[i].files
              && (e.holder == e.ino || tr[i].files[e.holder].owner != tr[i].files[e.ino].owner)
  {
    AlwaysHonest(tr, sts, i);
    assert Honest(tr[i], e);
    if e.Renamed? {
      forall c ensures Removed(e.run, e.rm.want, e.ino, c) in tr[i].log ==> e.content == e.rm.want {
        var d := Removed(e.run, e.rm.want, e.ino, c);
        if d in tr[i].log { assert Honest(tr[i], d); }
      }
    }
  }

  /** A run whose write failed removes its own file by name. */
  predicate AbortsItsOwn(s: State, e: Event) {
    e.Aborted? ==> e.run in s.owns && e.removed == Some(s.owns[e.run])
  }

  lemma StepAbortsItsOwn(s: State, st: Step, e: Event)
    requires WellFormed(s) && Enabled(s, st) && InsideOwnsLock(s)
    requires e in Next(s, st).log && (e in s.log ==> AbortsItsOwn(s, e))
    ensures AbortsItsOwn(Next(s, st), e)
  {
    if e.Aborted? {
      if e in s.log {
        OwnsLast(s, st, e.run);
      } else {
        NewEvents(s, st, e);
        AbortKeepsLock(s, st.run);
      }
    }
  }

  lemma OwnsLast(s: State, st: Step, r: Run)
    requires WellFormed(s) && Enabled(s, st) && r in s.owns
    ensures r in Next(s, st).owns && Next(s, st).owns[r] == s.owns[r]
  {
    match st
    case Create(q, line, ok) => assert PcOk(s.files, s.lines, s.owns, q, s.pcs[q]);
    case Read(q, ok, same) => ReadFrame(s, q, ok, same);
    case Drop(q) => DropFrame(s, q);
    case _ =>
  }

  /** createLock's Remove after a failed write takes away the run's own file,
      unless an earlier rename raced. */
  lemma {:induction false} AbortIsSafeUnlessRaced(tr: seq<State>, sts: seq<Step>, i: nat)
    requires Behaviour(tr, sts) && i < |tr|
    ensures Raced(tr[i]) || forall e | e in tr[i].log :: AbortsItsOwn(tr[i], e)
  {
    if i > 0 {
      AbortIsSafeUnlessRaced(tr, sts, i - 1);
      AlwaysWellFormed(tr, sts, i - 1);
      OwnsUnlessRaced(tr, sts, i - 1);
      assert tr[i] == Next(tr[i - 1], sts[i - 1]);
      LogGrows(tr[i - 1], sts[i - 1]);
      if !Raced(tr[i]) {
        forall e | e in tr[i].log ensures AbortsItsOwn(tr[i], e) {
          StepAbortsItsOwn(tr[i - 1], sts[i - 1], e);
        }
      }
    }
  }

  // ------------------------------------------------------- when exclusion holds

  /** What the environment lets happen: how time passes, whether runs die and
      which calls fail. */
  type Policy = (State, Step) -> bool

  /** A behaviour in which every step is let happen. */
  ghost predicate Allowed(allows: Policy, tr: seq<State>, sts: seq<Step>) {
    Behaviour(tr, sts) && forall i | 0 <= i < |sts| :: allows(tr[i], sts[i])
  }

  /** A call of a run that succeeds. */
  predicate Succeeds(st: Step) {
    match st
    case Begin(_) => true
    case Create(_, _, ok) => ok
    case Write(_, _) => true
    case Close(_) => true
    case Read(_, ok, same) => ok && !same
    case Rename(_, ok) => ok
    case Drop(_) => true
    case _ => false
  }

  /** Runs may start at any time, and any run may go on with a call that
      succeeds: the environment does not schedule them. */
  ghost predicate LetsRun(allows: Policy) { forall s, st | Succeeds(st) :: allows(s, st) }

  ghost predicate Reachable(allows: Policy, s: State) {
    exists tr, sts :: Allowed(allows, tr, sts) && tr[|sts|] == s
  }

  lemma Reach(allows: Policy, s: State, st: Step)
    requires Reachable(allows, s) && Enabled(s, st) && allows(s, st)
    ensures Reachable(allows, Next(s, st))
  {
    var tr, sts :| Allowed(allows, tr, sts) && tr[|sts|] == s;
    var t := Next(s, st);
    assert Allowed(allows, tr + [t], sts + [st]);
    assert (tr + [t])[|sts + [st]|] == t;
  }

  lemma ReachableIsOk(allows: Policy, s: State)
    requires Reachable(allows, s)
    ensures WellFormed(s) && PrivateNames(s)
  {
    var tr, sts :| Allowed(allows, tr, sts) && tr[|sts|] == s;
    AlwaysWellFormed(tr, sts, |sts|);
    AlwaysPrivate(tr, sts, |sts|);
  }

  /** A private name is one of a run that began. */
  ghost predicate PrivateNames(s: State) { forall n | n in s.dir && n.Private? :: n.run in s.pcs }

  lemma StepKeepsPrivate(s: State, st: Step)
    requires Enabled(s, st) && PrivateNames(s)
    ensures PrivateNames(Next(s, st))
  {
    match st
    case Read(r, ok, same) => ReadFrame(s, r, ok, same);
    case Drop(r) => DropFrame(s, r);
    case _ =>
  }

  lemma {:induction false} AlwaysPrivate(tr: seq<State>, sts: seq<Step>, i: nat)
    requires Behaviour(tr, sts) && i < |tr|
    ensures PrivateNames(tr[i])
  {
    if i > 0 {
      AlwaysPrivate(tr, sts, i - 1);
      assert tr[i] == Next(tr[i - 1], sts[i - 1]);
      StepKeepsPrivate(tr[i - 1], sts[i - 1]);
    }
  }

  // ------------------------------------------- how it is lost, from any state

  function WithReading(pc: Pc, rd: Reading): Pc {
    match pc
    case Inspecting(attempt, _) => Inspecting(attempt, rd)
    case Checking(rm, _) => Checking(rm, rd)
    case Verifying(rm, _) => Verifying(rm, rd)
    case _ => pc
  }

  /** The file run r's readLock is about. */
  predicate ReadsFile(s: State, r: Run, i: Ino) {
    && IsReading(s, r)
    && ReadName(r, s.pcs[r]) in s.dir && s.dir[ReadName(r, s.pcs[r])] == i && i in s.files
  }

  /** Where run r goes on when its readLock got file i. */
  function AfterReading(s: State, r: Run, i: Ino, mtime: nat): Pc
    requires ReadsFile(s, r, i)
  {
    var out := Got(s.files[i].Content(), mtime);
    match s.pcs[r]
    case Inspecting(attempt, _) => AfterInspecting(s.nows[r], attempt, out)
    case Checking(rm, _) => AfterChecking(rm, out)
    case Verifying(rm, _) => AfterVerifying(rm, out)
  }

  /** Some behaviour reaches s, whatever it logged on its way. */
  ghost predicate Reaches(allows: Policy, s: State) {
    LetsRun(allows) && exists log: seq<Event> :: Reachable(allows, s.(log := log))
  }

  /** One step, to a state given up to its log. */
  lemma Take(allows: Policy, s: State, st: Step, t: State)
    requires Reaches(allows, s) && Enabled(s, st)
    requires Succeeds(st) || forall log: seq<Event> {:trigger s.(log := log)} :: allows(s.(log := log), st)
    requires forall log: seq<Event> {:trigger s.(log := log)} ::
      Enabled(s.(log := log), st) && Next(s.(log := log), st) == t.(log := Next(s.(log := log), st).log)
    ensures Reaches(allows, t)
  {
    var log: seq<Event> :| Reachable(allows, s.(log := log));
    assert allows(s.(log := log), st);
    Reach(allows, s.(log := log), st);
    assert Reachable(allows, t.(log := Next(s.(log := log), st).log));
  }

  lemma ReadsOnce(allows: Policy, s: State, r: Run, i: Ino, rd: Reading)
    requires Reaches(allows, s) && ReadsFile(s, r, i)
    requires rd == match ReadingOf(s.pcs[r]) case AtLstat => AtOpen(i) case _ => AtRead(i, s.files[i].mtime)
    requires ReadingOf(s.pcs[r]) in {AtLstat, AtOpen(i)}
    ensures Reaches(allows, Goto(s, r, WithReading(s.pcs[r], rd)))
  {
    Take(allows, s, Read(r, true, false), Goto(s, r, WithReading(s.pcs[r], rd)));
  }

  lemma ReadsContent(allows: Policy, s: State, r: Run, i: Ino, mtime: nat)
    requires Reaches(allows, s) && ReadsFile(s, r, i) && ReadingOf(s.pcs[r]) == AtRead(i, mtime) && Complete(s.files[i].Content())
    ensures Reaches(allows, Goto(s, r, AfterReading(s, r, i, mtime)))
  {
    Take(allows, s, Read(r, true, false), Goto(s, r, AfterReading(s, r, i, mtime)));
  }

  /** Two calls of readLock on, it is about to read. */
  lemma ReadsToOpen(allows: Policy, s: State, r: Run, i: Ino)
    requires Reaches(allows, s) && ReadsFile(s, r, i) && ReadingOf(s.pcs[r]) == AtLstat
    ensures Reaches(allows, Goto(s, r, WithReading(s.pcs[r], AtRead(i, s.files[i].mtime))))
  {
    ReadsOnce(allows, s, r, i, AtOpen(i));
    var a := Goto(s, r, WithReading(s.pcs[r], AtOpen(i)));
    ReadsOnce(allows, a, r, i, AtRead(i, s.files[i].mtime));
    assert Goto(a, r, WithReading(a.pcs[r], AtRead(i, s.files[i].mtime))).pcs
        == Goto(s, r, WithReading(s.pcs[r], AtRead(i, s.files[i].mtime))).pcs;
  }

  /** Three undisturbed calls of readLock. */
  lemma ReadsThrough(allows: Policy, s: State, r: Run, i: Ino)
    requires Reaches(allows, s) && ReadsFile(s, r, i) && ReadingOf(s.pcs[r]) == AtLstat && Complete(s.files[i].Content())
    ensures Reaches(allows, Goto(s, r, AfterReading(s, r, i, s.files[i].mtime)))
  {
    var mtime := s.files[i].mtime;
    ReadsToOpen(allows, s, r, i);
    var b := Goto(s, r, WithReading(s.pcs[r], AtRead(i, mtime)));
    ReadsContent(allows, b, r, i, mtime);
    assert AfterReading(b, r, i, mtime) == AfterReading(s, r, i, mtime);
    assert Goto(b, r, AfterReading(b, r, i, mtime)).pcs == Goto(s, r, AfterReading(s, r, i, mtime)).pcs;
  }

  /** Run r holds the lock with a file just written. */
  function HeldBy(s: State, r: Run, line: Line): State {
    s.(dir := s.dir[LockName := s.nextIno],
       files := s.files[s.nextIno := File(r, line, |line|, s.clock)],
       lines := s.lines[line := s.nextIno],
       pcs := s.pcs[r := Holding], owns := s.owns[r := s.nextIno], nextIno := s.nextIno + 1)
  }

  lemma WritesItAll(allows: Policy, s: State, r: Run, line: Line)
    requires Reaches(allows, s) && InWriting(s, r) && Complete(line)
    requires s.files[s.owns[r]].line == line && s.files[s.owns[r]].written == 0
    ensures Reaches(allows, s.(files := s.files[s.owns[r] := File(s.files[s.owns[r]].owner, line, |line|, s.clock)], pcs := s.pcs[r := Holding]))
  {
    var b := WriteLine(s, r, |line|);
    Take(allows, s, Write(r, |line|), b);
    Take(allows, b, Close(r), Goto(b, r, Holding));
  }

  lemma CreatesFile(allows: Policy, s: State, r: Run, line: Line)
    requires Reaches(allows, s) && CanCreate(s, r, line) && LockName !in s.dir
    ensures Reaches(allows, CreateLock(s, r, line, true))
  {
    Take(allows, s, Create(r, line, true), CreateLock(s, r, line, true));
  }

  /** A run that finds the lock free takes it. */
  lemma TakesFreeLock(allows: Policy, s: State, r: Run, line: Line)
    requires Reaches(allows, s) && CanCreate(s, r, line) && LockName !in s.dir
    ensures Reaches(allows, HeldBy(s, r, line))
  {
    CreatesFile(allows, s, r, line);
    var a := CreateLock(s, r, line, true);
    assert a.owns[r] == s.nextIno && a.files[s.nextIno] == File(r, line, 0, s.clock);
    WritesItAll(allows, a, r, line);
    var b := a.(files := a.files[s.nextIno := File(r, line, |line|, s.clock)], pcs := a.pcs[r := Holding]);
    assert b.files == HeldBy(s, r, line).files;
    assert b.pcs == HeldBy(s, r, line).pcs;
  }

  /** The state after run r's rename. */
  function Moved(s: State, r: Run): State
    requires CanMove(s, r) && LockName in s.dir
  {
    var rm := s.pcs[r].rm;
    s.(dir := (s.dir - {LockName})[Private(r, rm.takeover) := s.dir[LockName]], pcs := s.pcs[r := Verifying(rm, AtLstat)])
  }

  lemma MovesAside(allows: Policy, s: State, r: Run)
    requires Reaches(allows, s) && CanMove(s, r) && LockName in s.dir
    ensures Reaches(allows, Moved(s, r))
  {
    Take(allows, s, Rename(r, true), Moved(s, r));
  }

  lemma DropsStale(allows: Policy, s: State, r: Run)
    requires Reaches(allows, s) && CanDrop(s, r) && s.pcs[r].matched && s.pcs[r].rm.takeover
    ensures Reaches(allows, Goto(s.(dir := s.dir - {Private(r, true)}), r, Creating(1)))
  {
    Take(allows, s, Drop(r), Goto(s.(dir := s.dir - {Private(r, true)}), r, Creating(1)));
  }

  /** The file the lock name leads to. */
  predicate IsLock(s: State, i: Ino) { LockName in s.dir && s.dir[LockName] == i && i in s.files }

  predicate IsCompleteLock(s: State, i: Ino) { IsLock(s, i) && Complete(s.files[i].Content()) }

  /** A run that just began finds the lock taken, and opens it. */
  lemma OpensIt(allows: Policy, s: State, r: Run, i: Ino, line: Line)
    requires Reaches(allows, s) && CanCreate(s, r, line) && s.pcs[r] == Creating(0) && r in s.nows && IsLock(s, i)
    ensures Reaches(allows, Goto(s, r, Inspecting(0, AtRead(i, s.files[i].mtime))))
  {
    var a := Goto(s, r, Inspecting(0, AtLstat));
    Take(allows, s, Create(r, line, true), a);
    ReadsToOpen(allows, a, r, i);
    assert Goto(a, r, Inspecting(0, AtRead(i, s.files[i].mtime))).pcs == Goto(s, r, Inspecting(0, AtRead(i, s.files[i].mtime))).pcs;
  }

  /** Having opened a lock too old and now complete, it checks it and means to
      take it over. */
  lemma MeansTo(allows: Policy, s: State, r: Run, i: Ino, mtime: nat)
    requires Reaches(allows, s) && r in s.pcs && r in s.nows && s.pcs[r] == Inspecting(0, AtRead(i, mtime))
    requires IsCompleteLock(s, i) && s.nows[r] - mtime > LOCK_MAX_AGE
    ensures Reaches(allows, Goto(s, r, Renaming(Removal(s.files[i].Content(), true))))
  {
    var rm := Removal(s.files[i].Content(), true);
    ReadsContent(allows, s, r, i, mtime);
    var a := Goto(s, r, Checking(rm, AtLstat));
    ReadsThrough(allows, a, r, i);
    assert Goto(a, r, Renaming(rm)).pcs == Goto(s, r, Renaming(rm)).pcs;
  }

  lemma MeansToTakeOver(allows: Policy, s: State, r: Run, i: Ino, line: Line)
    requires Reaches(allows, s) && CanCreate(s, r, line) && s.pcs[r] == Creating(0) && r in s.nows
    requires IsCompleteLock(s, i) && s.nows[r] - s.files[i].mtime > LOCK_MAX_AGE
    ensures Reaches(allows, Goto(s, r, Renaming(Removal(s.files[i].Content(), true))))
  {
    OpensIt(allows, s, r, i, line);
    var a := Goto(s, r, Inspecting(0, AtRead(i, s.files[i].mtime)));
    MeansTo(allows, a, r, i, s.files[i].mtime);
    var rm := Removal(s.files[i].Content(), true);
    assert Goto(a, r, Renaming(rm)).pcs == Goto(s, r, Renaming(rm)).pcs;
  }

  /** Undisturbed, it removes the stale lock ... */
  lemma RemovesStale(allows: Policy, s: State, r: Run, i: Ino)
    requires Reaches(allows, s) && r in s.pcs && r in s.nows && IsCompleteLock(s, i)
    requires s.pcs[r] == Renaming(Removal(s.files[i].Content(), true)) && Private(r, true) !in s.dir
    ensures Reaches(allows, Goto(s.(dir := s.dir - {LockName}), r, Creating(1)))
  {
    MovesAside(allows, s, r);
    var a := Moved(s, r);
    ReadsThrough(allows, a, r, i);
    var b := Goto(a, r, Dropping(Removal(s.files[i].Content(), true), true));
    DropsStale(allows, b, r);
    assert b.dir - {Private(r, true)} == s.dir - {LockName};
    var c := Goto(b.(dir := b.dir - {Private(r, true)}), r, Creating(1));
    assert c.pcs == Goto(s, r, Creating(1)).pcs;
  }

  /** ... and takes its place. */
  lemma TakesOverLock(allows: Policy, s: State, r: Run, i: Ino, line: Line)
    requires Reaches(allows, s) && r in s.pcs && r in s.nows && Complete(line) && line !in s.lines && IsCompleteLock(s, i)
    requires s.pcs[r] == Renaming(Removal(s.files[i].Content(), true)) && Private(r, true) !in s.dir
    ensures Reaches(allows, HeldBy(s.(dir := s.dir - {LockName}), r, line))
  {
    RemovesStale(allows, s, r, i);
    var c := Goto(s.(dir := s.dir - {LockName}), r, Creating(1));
    TakesFreeLock(allows, c, r, line);
    assert HeldBy(c, r, line).pcs == HeldBy(s, r, line).pcs;
  }

  lemma BeginsAt(allows: Policy, s: State, r: Run)
    requires Reaches(allows, s) && r !in s.pcs
    ensures Reaches(allows, Begun(s, r))
  {
    Take(allows, s, Begin(r), Begun(s, r));
  }

  /** A line no run was given, other than the one given. */
  lemma FreshLine(used: set<Line>) returns (line: Line)
    ensures Complete(line) && line !in used
  {
    var firsts := set l | l in used && l != [] :: l[0];
    var n := Above(firsts + {NEWLINE});
    line := [n, NEWLINE];
    assert line[1..] == [NEWLINE] && NewlineIn(line[1..]) == 0;
    assert forall l | l in used && l != [] :: l[0] in firsts;
  }

  lemma {:induction false} Above(ns: set<nat>) returns (n: nat)
    ensures forall m | m in ns :: m < n
  {
    if ns == {} {
      n := 0;
    } else {
      var m :| m in ns;
      var k := Above(ns - {m});
      n := if m < k then k else m + 1;
      assert forall x | x in ns :: x == m || x in ns - {m};
    }
  }

  /** Some behaviour the environment allows ends with two runs inside. */
  ghost predicate CanLose(allows: Policy) { exists tr, sts :: Allowed(allows, tr, sts) && !Exclusive(tr[|sts|]) }

  lemma LosesIt(allows: Policy, s: State, q: Run, r: Run)
    requires Reaches(allows, s) && Inside(s, q) && Inside(s, r) && q != r
    ensures CanLose(allows)
  {
    var log: seq<Event> :| Reachable(allows, s.(log := log));
    var t := s.(log := log);
    assert Inside(t, q) && Inside(t, r);
    var tr, sts :| Allowed(allows, tr, sts) && tr[|sts|] == t;
  }

  /** With the name free while a run is inside, the next run takes it: two are
      inside. */
  lemma FreeNameLoses(allows: Policy, s: State, q: Run)
    requires Reaches(allows, s) && Inside(s, q) && LockName !in s.dir
    ensures CanLose(allows)
  {
    var r := Above(s.pcs.Keys);
    BeginsAt(allows, s, r);
    var a := Begun(s, r);
    var line := FreshLine(s.lines.Keys);
    TakesFreeLock(allows, a, r, line);
    LosesIt(allows, HeldBy(a, r, line), q, r);
  }

  /** Two runs take over one complete stale lock at once: the second moves the
      first one's new lock aside. */
  lemma CompleteLoses(allows: Policy, s: State, i: Ino)
    requires Reaches(allows, s) && PrivateNames(s) && IsCompleteLock(s, i) && s.clock - s.files[i].mtime > LOCK_MAX_AGE
    ensures CanLose(allows)
  {
    var q := Above(s.pcs.Keys);
    var r := q + 1;
    var rm := Removal(s.files[i].Content(), true);
    var line := FreshLine(s.lines.Keys);
    BeginsAt(allows, s, q);
    BeginsAt(allows, Begun(s, q), r);
    var a := Begun(Begun(s, q), r);
    MeansToTakeOver(allows, a, q, i, line);
    var b := Goto(a, q, Renaming(rm));
    MeansToTakeOver(allows, b, r, i, line);
    var c := Goto(b, r, Renaming(rm));
    assert Private(q, true) !in c.dir;
    TakesOverLock(allows, c, q, i, line);
    var d := HeldBy(c.(dir := c.dir - {LockName}), q, line);
    MovesAside(allows, d, r);
    FreeNameLoses(allows, Moved(d, r), q);
  }

  /** The run's file with all of its line in it. */
  function Completed(s: State, w: Run): State
    requires InWriting(s, w)
  {
    var i := s.owns[w];
    s.(files := s.files[i := File(s.files[i].owner, s.files[i].line, |s.files[i].line|, s.clock)])
  }

  lemma Completes(allows: Policy, s: State, w: Run)
    requires Reaches(allows, s) && InWriting(s, w) && s.files[s.owns[w]].written < |s.files[s.owns[w]].line|
    ensures Reaches(allows, Completed(s, w))
  {
    Take(allows, s, Write(w, |s.files[s.owns[w]].line| - s.files[s.owns[w]].written), Completed(s, w));
  }

  /** Having opened an old lock that is now complete, a run takes it over. */
  lemma TakesOverOpened(allows: Policy, s: State, r: Run, i: Ino, mtime: nat, line: Line)
    requires Reaches(allows, s) && r in s.pcs && r in s.nows && s.pcs[r] == Inspecting(0, AtRead(i, mtime))
    requires IsCompleteLock(s, i) && s.nows[r] - mtime > LOCK_MAX_AGE
    requires Complete(line) && line !in s.lines && Private(r, true) !in s.dir
    ensures Reaches(allows, HeldBy(s.(dir := s.dir - {LockName}), r, line))
  {
    var rm := Removal(s.files[i].Content(), true);
    MeansTo(allows, s, r, i, mtime);
    var a := Goto(s, r, Renaming(rm));
    TakesOverLock(allows, a, r, i, line);
    assert HeldBy(a.(dir := a.dir - {LockName}), r, line).pcs == HeldBy(s.(dir := s.dir - {LockName}), r, line).pcs;
  }

  /** A run that opened an old lock before its creator completed it takes it over
      while that run is inside. */
  lemma WritingLoses(allows: Policy, s: State, i: Ino)
    requires Reaches(allows, s) && WellFormed(s) && PrivateNames(s) && IsLock(s, i) && s.clock - s.files[i].mtime > LOCK_MAX_AGE
    requires InWritingPc(s.pcs, s.files[i].owner) && !Complete(s.files[i].Content())
    ensures CanLose(allows)
  {
    var w, mtime := s.files[i].owner, s.files[i].mtime;
    var r := Above(s.pcs.Keys);
    var line := FreshLine(s.lines.Keys);
    BeginsAt(allows, s, r);
    OpensIt(allows, Begun(s, r), r, i, line);
    var b := Goto(Begun(s, r), r, Inspecting(0, AtRead(i, mtime)));
    assert r != w && InWriting(b, w) && b.owns[w] == i;
    Completes(allows, b, w);
    TakesOverOpened(allows, Completed(b, w), r, i, mtime, line);
    BothInside(allows, Completed(b, w), w, r, line);
  }

  lemma BothInside(allows: Policy, s: State, w: Run, r: Run, line: Line)
    requires Inside(s, w) && w != r && Reaches(allows, HeldBy(s.(dir := s.dir - {LockName}), r, line))
    ensures CanLose(allows)
  {
    LosesIt(allows, HeldBy(s.(dir := s.dir - {LockName}), r, line), w, r);
  }

  /** From every state in which the lock can be taken over exclusion can be lost. */
  lemma TakeableLoses(allows: Policy, s: State)
    requires LetsRun(allows) && Reachable(allows, s) && Takeable(s)
    ensures CanLose(allows)
  {
    ReachableIsOk(allows, s);
    assert s.(log := s.log) == s;
    var i := s.dir[LockName];
    if Complete(s.files[i].Content()) {
      CompleteLoses(allows, s, i);
    } else {
      WritingLoses(allows, s, i);
    }
  }

  /** Right after every race exclusion can be lost. */
  lemma RaceLoses(allows: Policy, s: State, r: Run, ok: bool)
    requires LetsRun(allows) && Reachable(allows, s) && Enabled(s, Rename(r, ok)) && allows(s, Rename(r, ok))
    requires !Raced(s) && Raced(MoveAside(s, r, ok))
    ensures CanLose(allows)
  {
    ReachableIsOk(allows, s);
    Reach(allows, s, Rename(r, ok));
    var t := MoveAside(s, r, ok);
    var e :| e in t.log && IsRace(e);
    var q := s.files[s.dir[LockName]].owner;
    assert Inside(s, q) && q != r;
    assert t.(log := t.log) == t;
    FreeNameLoses(allows, t, q);
  }

  // ------------------------------------------------------ the exact condition

  ghost predicate AlwaysExclusive(allows: Policy) { forall tr, sts | Allowed(allows, tr, sts) :: Exclusive(tr[|sts|]) }

  ghost predicate NeverTakeable(allows: Policy) { forall tr, sts | Allowed(allows, tr, sts) :: !Takeable(tr[|sts|]) }

  ghost predicate NeverRaced(allows: Policy) { forall tr, sts | Allowed(allows, tr, sts) :: !Raced(tr[|sts|]) }

  lemma PrefixAllowed(allows: Policy, tr: seq<State>, sts: seq<Step>, i: nat)
    requires Allowed(allows, tr, sts) && i < |tr|
    ensures Allowed(allows, tr[..i + 1], sts[..i]) && tr[..i + 1][|sts[..i]|] == tr[i]
  {}

  /** However the environment lets time pass, runs die and calls fail: exclusion
      holds in every behaviour it allows if and only if in none of them the lock
      can be taken over (too old, and complete or about to be), and if and only if
      none of them races. */
  lemma ExclusiveExactly(allows: Policy)
    requires LetsRun(allows)
    ensures AlwaysExclusive(allows) <==> NeverTakeable(allows)
    ensures AlwaysExclusive(allows) <==> NeverRaced(allows)
  {
    if NeverTakeable(allows) { TimelyIsEnough(allows); }
    if NeverRaced(allows) { RacelessIsEnough(allows); }
    if AlwaysExclusive(allows) {
      forall tr, sts | Allowed(allows, tr, sts) ensures !Takeable(tr[|sts|]) {
        assert Reachable(allows, tr[|sts|]);
        if Takeable(tr[|sts|]) { TakeableLoses(allows, tr[|sts|]); }
      }
      TimelyIsEnough(allows);
    }
  }

  lemma TimelyIsEnough(allows: Policy)
    requires NeverTakeable(allows)
    ensures AlwaysExclusive(allows) && NeverRaced(allows)
  {
    forall tr, sts | Allowed(allows, tr, sts) ensures Exclusive(tr[|sts|]) && !Raced(tr[|sts|]) {
      forall k | 0 <= k < |sts| ensures Timely(tr[k]) { PrefixAllowed(allows, tr, sts, k); }
      ExclusiveWhenTimely(tr, sts, |sts|);
    }
  }

  lemma RacelessIsEnough(allows: Policy)
    requires NeverRaced(allows)
    ensures AlwaysExclusive(allows)
  {
    forall tr, sts | Allowed(allows, tr, sts) ensures Exclusive(tr[|sts|]) { ExclusiveUnlessRaced(tr, sts, |sts|); }
  }

  /** The residual race is real: when nothing keeps a run from dying or time from
      passing, two runs can be inside. */
  lemma ExclusionCanFail()
    ensures exists tr, sts :: Behaviour(tr, sts) && !Exclusive(tr[|sts|])
  {
    var allows: Policy := (s, st) => true;
    assert Allowed(allows, [INIT], []);
    assert Reachable(allows, INIT.(log := []));
    BeginsAt(allows, INIT, 0);
    var line := FreshLine({});
    TakesFreeLock(allows, Begun(INIT, 0), 0, line);
    var b := HeldBy(Begun(INIT, 0), 0, line);
    Take(allows, b, Tick(LOCK_MAX_AGE + 1), b.(clock := LOCK_MAX_AGE + 1));
    var c := b.(clock := LOCK_MAX_AGE + 1);
    assert IsCompleteLock(c, 0) && PrivateNames(c);
    CompleteLoses(allows, c, 0);
    var tr, sts :| Allowed(allows, tr, sts) && !Exclusive(tr[|sts|]);
  }
}
