/** The maintenance gate and the restore it protects, as steps of concurrent processes.

    Models backend/assets/maintenance_gate.py:25-29, 59-138, 141-201 and backups.py:660-668, 1295-1349, 1382-1540. Two
    `flock` files order the processes: the controller lock belongs to an open file
    description that a database client inherits, so an orphaned client keeps it; the access
    lock is shared by requests and exclusive for a maintenance window. The state file, the
    database, the media tree and the backups survive crashes; a process may stop anywhere.
 */
module MaintenanceGate {
  import opened RackRanges

  /** The database tables and the media tree; None when there is no media directory. */
  datatype Snapshot = Snapshot(db: int, media: Option<int>)

  /** The durable state file; `safety` names the backup taken before a restore. */
  datatype Marker = Marker(restore: bool, dirty: bool, safety: Option<int>)

  datatype RequestAt = ReadingState | TryingController | ReReading | Clearing | Dropping | TakingAccess | Inside

  datatype Job = Job(restore: bool, recover: bool, target: int)

  datatype WindowAt =
    | TakingController
    | Reading
    | Draining
    | Waiting
    | Checking
    | Saving(client: Option<int>)
    | Validated(made: Option<int>)
    | MarkingMedia
    | MovingOut
    | MovingIn(aside: Option<int>)
    | MarkingDatabase(aside: Option<int>)
    | Importing(client: Option<int>, aside: Option<int>)
    | Verifying(aside: Option<int>)
    | Auditing
    | Undoing(aside: Option<int>)
    | Leaving(held: bool)
    | Closing(held: bool)

  datatype ClientStatus = Running | Done | Failed

  /** `mem` is the window's copy of the state; `source` the content of the validated backup. */
  datatype Process =
    | Request(second: bool, point: RequestAt)
    | Window(job: Job, at: WindowAt, mem: Marker, recovering: bool, source: Snapshot, complete: bool)
    | Client(content: Option<int>, status: ClientStatus)

  /** `clean` is the last accepted content: what requests left, or what a window accepted. */
  datatype Host = Host(procs: map<int, Process>, marker: Option<Marker>, db: int, media: Option<int>,
                       backups: map<int, Snapshot>, clean: Snapshot)

  datatype Step =
    | Arrive(p: int)
    | Ask(p: int)
    | Serve(p: int, db: int, media: Option<int>, kept: set<int>)
    | Start(p: int, job: Job)
    | Go(p: int)
    | Miss(p: int)
    | MissLate(p: int)
    | Spawn(p: int, c: int)
    | Saved(p: int, id: int)
    | ClientWrites(c: int, db: int)
    | ClientDone(c: int)
    | ClientFails(c: int)
    | Crash(p: int)

  // ---------- who holds which lock ----------

  predicate HoldsController(proc: Process) {
    match proc
    case Request(_, point) => point == ReReading || point == Clearing || point == Dropping
    case Window(_, at, _, _, _, _) => at != TakingController
    case Client(_, status) => status == Running
  }

  predicate HoldsShared(proc: Process) {
    proc.Request? && proc.second
  }

  predicate InBody(at: WindowAt) {
    !(at == TakingController || at == Reading || at == Draining || at == Waiting || at.Leaving? || at.Closing?)
  }

  predicate HoldsExclusive(proc: Process) {
    proc.Window? && (InBody(proc.at) || (proc.at.Leaving? && proc.at.held) || (proc.at.Closing? && proc.at.held))
  }

  function ClientOf(at: WindowAt): Option<int> {
    match at
    case Saving(client) => client
    case Importing(client, _) => client
    case _ => None
  }

  predicate ControllerFree(h: Host) {
    forall p :: p in h.procs ==> !HoldsController(h.procs[p])
  }

  predicate NobodyShared(h: Host) {
    forall p :: p in h.procs ==> !HoldsShared(h.procs[p])
  }

  predicate NobodyExclusive(h: Host) {
    forall p :: p in h.procs ==> !HoldsExclusive(h.procs[p])
  }

  predicate Dirty(marker: Option<Marker>) {
    marker.Some? && marker.value.dirty
  }

  predicate ClientFinished(h: Host, client: Option<int>, status: ClientStatus) {
    client.Some? && client.value in h.procs && h.procs[client.value].Client? && h.procs[client.value].status == status
  }

  predicate ClientStopped(h: Host, client: Option<int>) {
    client == None || ClientFinished(h, client, Done) || ClientFinished(h, client, Failed)
  }

  // ---------- the steps ----------

  function Put(h: Host, p: int, proc: Process): Host {
    h.(procs := h.procs[p := proc])
  }

  /** The process is gone and its descriptors with it. */
  function Gone(h: Host, p: int): Host {
    h.(procs := h.procs - {p})
  }

  /** `_reject_active` passed: on to the access lock, or inside. */
  function Passed(h: Host, p: int, second: bool): Host {
    Put(h, p, if second then Request(true, Inside) else Request(false, TakingAccess))
  }

  /** One action of `business_access` (maintenance_gate.py:92-112, 126-138). */
  function AskNext(h: Host, p: int, r: Process): Host
    requires r.Request?
  {
    match r.point
    case ReadingState =>
      if h.marker == None then Passed(h, p, r.second)
      else if Dirty(h.marker) then Gone(h, p)
      else Put(h, p, r.(point := TryingController))
    case TryingController => if ControllerFree(h) then Put(h, p, r.(point := ReReading)) else Gone(h, p)
    case ReReading =>
      if h.marker == None then Put(h, p, r.(point := Dropping))
      else if Dirty(h.marker) then Gone(h, p)
      else Put(h, p, r.(point := Clearing))
    case Clearing => Put(h.(marker := None), p, r.(point := Dropping))
    case Dropping => Passed(h, p, r.second)
    case TakingAccess => if NobodyExclusive(h) then Put(h, p, Request(true, ReadingState)) else Gone(h, p)
    case Inside => Gone(h, p)
  }

  function MadeDirty(m: Marker): Marker { m.(dirty := true) }

  /** The state once a validated backup is staged; a fresh safety backup is named in it. */
  function WithSafety(w: Process): Marker
    requires w.Window? && w.at.Validated?
  {
    if w.at.made.Some? then w.mem.(safety := w.at.made) else w.mem
  }

  /** The next action of a window when nothing goes wrong. */
  function GoNext(h: Host, p: int, w: Process): Host
    requires w.Window?
  {
    match w.at
    case TakingController => if ControllerFree(h) then Put(h, p, w.(at := Reading)) else Gone(h, p)
    case Reading =>
      var dirty := Dirty(h.marker);
      if dirty && !(w.job.recover && w.job.restore) then Gone(h, p)
      else
        var safety := if h.marker.Some? then h.marker.value.safety else None;
        Put(h, p, w.(at := Draining, mem := Marker(w.job.restore, dirty, safety), recovering := dirty))
    case Draining => Put(h.(marker := Some(w.mem)), p, w.(at := Waiting))
    case Waiting => Put(h, p, w.(at := Checking))
    case Checking => CheckNext(h, p, w)
    case Saving(_) => h
    case Validated(_) =>
      var mem := WithSafety(w);
      Put(h.(marker := Some(mem)), p, w.(at := if w.source.media.Some? then MarkingMedia
          else MarkingDatabase(None), mem := mem))
    case MarkingMedia => Put(h.(marker := Some(MadeDirty(w.mem))), p, w.(at := MovingOut, mem := MadeDirty(w.mem)))
    case MovingOut => Put(h.(media := None), p, w.(at := MovingIn(h.media)))
    case MovingIn(aside) => Put(h.(media := w.source.media), p, w.(at := MarkingDatabase(aside)))
    case MarkingDatabase(aside) => Put(h.(marker := Some(MadeDirty(w.mem))), p,
                                       w.(at := Importing(None, aside), mem := MadeDirty(w.mem)))
    case Importing(_, aside) => Put(h, p, w.(at := Verifying(aside)))
    case Verifying(_) => Put(h.(marker := Some(w.mem)), p, w.(at := Auditing))
    case Auditing => Put(h, p, w.(at := Leaving(true), mem := w.mem.(dirty := false), complete := true))
    case Undoing(aside) => Put(if aside.Some? then h.(media := aside) else h, p, w.(at := Leaving(true)))
    case Leaving(held) =>
      if w.mem.dirty then Put(h, p, w.(at := Closing(held)))
      else Put(h.(marker := None, clean := Snapshot(h.db, h.media)), p, w.(at := Closing(held)))
    case Closing(held) => if held then Put(h, p, w.(at := Closing(false))) else Gone(h, p)
  }

  /** A backup window stages its work; a restore validates its backup, and a recovery takes
      only the recorded safety backup (backups.py:1391-1392, 1418-1437). */
  function CheckNext(h: Host, p: int, w: Process): Host
    requires w.Window?
  {
    if !w.job.restore then Put(h.(marker := Some(w.mem)), p, w.(at := Saving(None)))
    else if (w.recovering && w.mem.safety != Some(w.job.target)) || w.job.target !in h.backups then
      Put(h, p, w.(at := Leaving(true)))
    else Put(h, p, w.(at := if w.recovering then Validated(None) else Saving(None), source := h.backups[w.job.target]))
  }

  /** The next action raises before it has touched the disk. */
  function MissNext(h: Host, p: int, w: Process): Host
    requires w.Window?
  {
    match w.at
    case TakingController => Gone(h, p)
    case Reading => Gone(h, p)
    case Draining => Put(h, p, w.(at := Leaving(false)))
    case Waiting => Put(h, p, w.(at := Leaving(false)))
    case Validated(_) => Put(h, p, w.(at := Leaving(true), mem := WithSafety(w)))
    case MarkingMedia => Put(h, p, w.(at := Leaving(true), mem := MadeDirty(w.mem)))
    case MovingIn(aside) => Put(h.(media := aside), p, w.(at := Leaving(true)))
    case MarkingDatabase(_) => Put(h, p, w.(at := Leaving(true), mem := MadeDirty(w.mem)))
    case Importing(_, aside) => Put(h, p, w.(at := Undoing(aside)))
    case Verifying(aside) => Put(h, p, w.(at := Undoing(aside)))
    case Undoing(aside) => Put(if aside.Some? then h.(media := None) else h, p, w.(at := Leaving(true)))
    case Leaving(_) => h
    case Closing(_) => h
    case _ => Put(h, p, w.(at := Leaving(true)))
  }

  /** The next action raises although it reached the disk, or its own undoing failed. */
  function MissLateNext(h: Host, p: int, w: Process): Host
    requires w.Window?
  {
    match w.at
    case Draining => Put(h.(marker := Some(w.mem)), p, w.(at := Leaving(false)))
    case Checking => Put(if w.job.restore then h else h.(marker := Some(w.mem)), p, w.(at := Leaving(true)))
    case Validated(_) => Put(h.(marker := Some(WithSafety(w))), p, w.(at := Leaving(true), mem := WithSafety(w)))
    case MarkingMedia => Put(h.(marker := Some(MadeDirty(w.mem))), p, w.(at := Leaving(true), mem := MadeDirty(w.mem)))
    case MovingIn(_) => Put(h, p, w.(at := Leaving(true)))
    case MarkingDatabase(_) => Put(h.(marker := Some(MadeDirty(w.mem))), p,
                                   w.(at := Leaving(true), mem := MadeDirty(w.mem)))
    case Verifying(_) => Put(h.(marker := Some(w.mem)), p, w.(at := Leaving(true)))
    case Undoing(_) => Put(h, p, w.(at := Leaving(true)))
    case _ => MissNext(h, p, w)
  }

  predicate GoEnabled(h: Host, w: Process)
    requires w.Window?
  {
    && (w.at == Waiting ==> NobodyShared(h) && NobodyExclusive(h))
    && !w.at.Saving?
    && (w.at.Importing? ==> ClientFinished(h, w.at.client, Done))
  }

  predicate Enabled(h: Host, step: Step) {
    match step
    case Arrive(p) => p !in h.procs
    case Ask(p) => p in h.procs && h.procs[p].Request?
    case Serve(p, _, _, _) => p in h.procs && h.procs[p].Request? && h.procs[p].point == Inside
    case Start(p, _) => p !in h.procs
    case Go(p) => p in h.procs && h.procs[p].Window? && GoEnabled(h, h.procs[p])
    case Miss(p) => p in h.procs && h.procs[p].Window? && ClientStopped(h, ClientOf(h.procs[p].at))
    case MissLate(p) => p in h.procs && h.procs[p].Window? && ClientStopped(h, ClientOf(h.procs[p].at))
    case Spawn(p, c) =>
      && p in h.procs && h.procs[p].Window? && c !in h.procs
      && (h.procs[p].at.Saving? || h.procs[p].at.Importing?) && h.procs[p].at.client == None
    case Saved(p, id) => p in h.procs && h.procs[p].Window? && h.procs[p].at.Saving?
                         && ClientFinished(h, h.procs[p].at.client, Done) && id !in h.backups
    case ClientWrites(c, _) => c in h.procs && h.procs[c].Client? && h.procs[c].status == Running
                               && h.procs[c].content.Some?
    case ClientDone(c) => c in h.procs && h.procs[c].Client? && h.procs[c].status == Running
    case ClientFails(c) => c in h.procs && h.procs[c].Client? && h.procs[c].status == Running
    case Crash(p) => p in h.procs && !h.procs[p].Client?
  }

  function NewWindow(job: Job): Process {
    Window(job, TakingController, Marker(job.restore, false, None), false, Snapshot(0, None), false)
  }

  /** The client that a window starts: a dump, or the import of its backup. */
  function Spawned(h: Host, p: int, c: int, w: Process): Host
    requires w.Window? && (w.at.Saving? || w.at.Importing?)
  {
    if w.at.Saving? then Put(Put(h, c, Client(None, Running)), p, w.(at := Saving(Some(c))))
    else Put(Put(h, c, Client(Some(w.source.db), Running)), p, w.(at := Importing(Some(c), w.at.aside)))
  }

  /** A finished dump becomes a backup of the present content. */
  function SavedAs(h: Host, p: int, id: int, w: Process): Host
    requires w.Window?
  {
    Put(h.(backups := h.backups[id := Snapshot(h.db, h.media)]), p,
        w.(at := if w.job.restore then Validated(Some(id)) else Leaving(true)))
  }

  function Next(h: Host, step: Step): Host
    requires Enabled(h, step)
  {
    match step
    case Arrive(p) => Put(h, p, Request(false, ReadingState))
    case Ask(p) => AskNext(h, p, h.procs[p])
    case Serve(_, db, media, kept) =>
      h.(db := db, media := media, clean := Snapshot(db, media),
         backups := map b | b in h.backups && b in kept :: h.backups[b])
    case Start(p, job) => Put(h, p, NewWindow(job))
    case Go(p) => GoNext(h, p, h.procs[p])
    case Miss(p) => MissNext(h, p, h.procs[p])
    case MissLate(p) => MissLateNext(h, p, h.procs[p])
    case Spawn(p, c) => Spawned(h, p, c, h.procs[p])
    case Saved(p, id) => SavedAs(h, p, id, h.procs[p])
    case ClientWrites(_, db) => h.(db := db)
    case ClientDone(c) =>
      Put(if h.procs[c].content.Some? then h.(db := h.procs[c].content.value) else h, c, h.procs[c].(status := Done))
    case ClientFails(c) => Put(h, c, h.procs[c].(status := Failed))
    case Crash(p) => Gone(h, p)
  }

  /** A run takes each step that is possible when its turn comes. */
  function Run(h: Host, steps: seq<Step>): Host {
    if steps == [] then h
    else
      var before := Run(h, steps[..|steps| - 1]);
      if Enabled(before, steps[|steps| - 1]) then Next(before, steps[|steps| - 1]) else before
  }

  ghost predicate Initial(h: Host) {
    h.procs == map[] && h.marker == None && h.clean == Snapshot(h.db, h.media)
  }

  // ---------- the operation object ----------

  /** The state file on disk. */
  class StateFile {
    var marker: Option<Marker>

    constructor ()
      ensures marker == None
    {
      marker := None;
    }

    /** `_write_state`: the replacement may have happened although the call raises. */
    method Write(state: Marker, replaced: bool, synced: bool) returns (ok: bool)
      requires synced ==> replaced
      modifies this
      ensures ok == synced
      ensures marker == if replaced then Some(state) else old(marker)
    {
      if replaced { marker := Some(state); }
      return synced;
    }
  }

  /** `MaintenanceOperation`: its own copy of the state, written out at every stage. */
  class Operation {
    var state: Marker
    var recovering: bool
    const file: StateFile

    constructor (file: StateFile, restore: bool, previous: Option<Marker>)
      ensures this.file == file && fresh(this)
      ensures recovering == Dirty(previous)
      ensures state == Marker(restore, Dirty(previous), if previous.Some? then previous.value.safety else None)
    {
      this.file := file;
      recovering := previous.Some? && previous.value.dirty;
      state := Marker(restore, previous.Some? && previous.value.dirty, None);
      new;
      if previous.Some? && previous.value.safety.Some? {
        state := state.(safety := previous.value.safety);
      }
    }

    method Stage(safety: Option<int>, replaced: bool, synced: bool) returns (ok: bool)
      requires synced ==> replaced
      modifies this`state, file
      ensures ok == synced && state == if safety.Some? then old(state).(safety := safety) else old(state)
      ensures file.marker == if replaced then Some(state) else old(file.marker)
    {
      if safety.Some? { state := state.(safety := safety); }
      ok := file.Write(state, replaced, synced);
    }

    /** The copy is dirty before the file is: a failed write can only leave the gate closed. */
    method MarkDirty(replaced: bool, synced: bool) returns (ok: bool)
      requires synced ==> replaced
      modifies this`state, file
      ensures ok == synced && state == MadeDirty(old(state))
      ensures file.marker == if replaced then Some(state) else old(file.marker)
    {
      state := state.(dirty := true);
      ok := Stage(None, replaced, synced);
    }

    method Complete()
      modifies this`state
      ensures state == old(state).(dirty := false)
    {
      state := state.(dirty := false);
    }

    /** The end of `maintenance_window`: only a clean copy clears the file. */
    method Leave()
      modifies file
      ensures file.marker == if state.dirty then old(file.marker) else None
    {
      if !state.dirty { file.marker := None; }
    }
  }

  // ---------- the object performs the steps of its window ----------

  /** Reading the old state: the new operation is the window that the step produces. */
  method BeginOperation(file: StateFile, job: Job, ghost h: Host, ghost p: int) returns (op: Operation)
    requires p in h.procs && h.procs[p].Window? && h.procs[p].at == Reading && h.procs[p].job == job
             && file.marker == h.marker
    requires Dirty(h.marker) ==> job.recover && job.restore
    ensures fresh(op) && op.file == file
    ensures GoNext(h, p, h.procs[p]).procs[p] ==
              h.procs[p].(at := Draining, mem := op.state, recovering := op.recovering)
  {
    op := new Operation(file, job.restore, file.marker);
  }

  /** The points at which a window writes the state file. */
  predicate WritesMarker(job: Job, at: WindowAt) {
    at == Draining || (at == Checking && !job.restore) || at.Validated? || at == MarkingMedia || at.MarkingDatabase?
    || at.Verifying?
  }

  /** A writing stage, done on the object: memory and file end up as after the window's step
      that succeeds, raises late or raises early. */
  method WriteStage(op: Operation, job: Job, at: WindowAt, replaced: bool, synced: bool, ghost h: Host, ghost p: int)
    returns (ok: bool)
    requires synced ==> replaced
    requires p in h.procs && h.procs[p].Window? && h.procs[p].at == at && h.procs[p].job == job && WritesMarker(job, at)
    requires op.state == h.procs[p].mem && op.file.marker == h.marker
    modifies op`state, op.file
    ensures ok == synced
    ensures var w := h.procs[p];
            var h' := if synced then GoNext(h, p, w) else if replaced then MissLateNext(h, p, w) else MissNext(h, p, w);
            p in h'.procs && h'.procs[p].Window? && h'.procs[p].mem == op.state && h'.marker == op.file.marker
  {
    if at == MarkingMedia || at.MarkingDatabase? {
      ok := op.MarkDirty(replaced, synced);
    } else {
      ok := op.Stage(if at.Validated? then at.made else None, replaced, synced);
    }
  }

  /** `complete()` and leaving, done on the object. */
  method FinishOperation(op: Operation, at: WindowAt, ghost h: Host, ghost p: int)
    requires p in h.procs && h.procs[p].Window? && h.procs[p].at == at && (at == Auditing || at.Leaving?)
    requires op.state == h.procs[p].mem && op.file.marker == h.marker
    modifies op`state, op.file
    ensures var h' := GoNext(h, p, h.procs[p]);
            p in h'.procs && h'.procs[p].Window? && h'.procs[p].mem == op.state && h'.marker == op.file.marker
  {
    if at == Auditing { op.Complete(); } else { op.Leave(); }
  }

  // ---------- the invariants ----------

  predicate Linked(procs: map<int, Process>, p: int, c: int) {
    p in procs && procs[p].Window? && ClientOf(procs[p].at) == Some(c)
  }

  /** Two holders of the controller lock are a window and the client it started. */
  ghost predicate Alone(procs: map<int, Process>) {
    forall p, q :: p in procs && q in procs && p != q && HoldsController(procs[p]) && HoldsController(procs[q]) ==>
      Linked(procs, p, q) || Linked(procs, q, p)
  }

  ghost predicate Apart(procs: map<int, Process>) {
    forall p, q :: p in procs && q in procs && HoldsExclusive(procs[p]) ==> !HoldsShared(procs[q])
  }

  /** A window's client is one, and runs what the window started. */
  ghost predicate ClientsKnown(procs: map<int, Process>) {
    forall p, c :: p in procs && Linked(procs, p, c) ==>
      c in procs && procs[c].Client? && procs[c].content == if procs[p].at.Importing? then Some(procs[p].source.db)
          else None
  }

  predicate IsInside(proc: Process) {
    proc.Request? && proc.point == Inside
  }

  predicate IsRunning(proc: Process) {
    proc.Client? && proc.status == Running
  }

  /** Nobody is inside while a database client runs, orphaned or not. */
  ghost predicate Quiet(procs: map<int, Process>) {
    forall p, c :: p in procs && c in procs && IsInside(procs[p]) ==> !IsRunning(procs[c])
  }

  ghost predicate Locks(procs: map<int, Process>) {
    Alone(procs) && Apart(procs) && ClientsKnown(procs) && Quiet(procs)
  }

  /** The marker's safety backup holds the last accepted content. */
  ghost predicate Named(h: Host, m: Marker) {
    m.safety.Some? && m.safety.value in h.backups && h.backups[m.safety.value] == h.clean
  }

  /** The content is the accepted one unless the marker is dirty and names its backup. */
  ghost predicate DataSafe(h: Host) {
    && (Dirty(h.marker) ==> Named(h, h.marker.value))
    && (!Dirty(h.marker) ==> Snapshot(h.db, h.media) == h.clean)
  }

  ghost predicate RequestInv(h: Host, r: Process)
    requires r.Request?
  {
    && (r.point == Inside ==> r.second)
    && (r.point == TakingAccess ==> !r.second)
    && (r.second && r.point != ReadingState ==> !Dirty(h.marker))
    && (r.point == Clearing ==> h.marker.Some? && !Dirty(h.marker))
  }

  ghost predicate ClientInv(h: Host, c: Process)
    requires c.Client?
  {
    && (c.status == Running ==> h.marker.Some?)
    && (c.status == Running && c.content.Some? ==> Dirty(h.marker))
  }

  /** Content that is being replaced, so the marker must already be dirty. */
  predicate Changing(at: WindowAt) {
    at == MovingOut || at.MovingIn? || at.Importing? || at.Verifying? || at == Auditing || at.Undoing?
  }

  predicate Replacing(at: WindowAt) {
    at == MarkingMedia || at.MarkingDatabase? || Changing(at)
  }

  predicate MediaInPlace(at: WindowAt) {
    at.MarkingDatabase? || at.Importing? || at.Verifying? || at == Auditing
  }

  predicate Restored(h: Host, w: Process)
    requires w.Window?
  {
    h.db == w.source.db && (w.source.media.Some? ==> h.media == w.source.media)
  }

  /** Before the first mark a window's copy of the dirty flag is what it found. */
  predicate Undecided(at: WindowAt) {
    at == Draining || at == Waiting || at == Checking || at.Saving? || at.Validated? || at == MarkingMedia
  }

  ghost predicate MarkerKept(h: Host, w: Process)
    requires w.Window?
  {
    && (w.at == Waiting || InBody(w.at) ==> h.marker == Some(w.mem))
    && (w.at == Draining ==> Dirty(h.marker) == w.mem.dirty && (w.mem.dirty ==> h.marker.value.safety == w.mem.safety))
    && (Undecided(w.at) ==> w.mem.dirty == w.recovering)
    && (w.recovering && w.at != TakingController && w.at != Reading ==> w.job.restore)
    && (w.at.Saving? ==> !w.recovering)
    && (w.at.Leaving? && !w.mem.dirty ==> w.complete || !Dirty(h.marker))
    && (Changing(w.at) ==> w.mem.dirty)
    && (w.at.MarkingDatabase? && w.source.media.Some? ==> w.mem.dirty)
  }

  ghost predicate SourceKept(h: Host, w: Process)
    requires w.Window?
  {
    && (w.at.Validated? ==> w.job.restore && (w.at.made.Some? <==> !w.recovering))
    && (w.at.Validated? && w.at.made.Some? ==> w.at.made.value in h.backups && h.backups[w.at.made.value] == h.clean)
    && (Replacing(w.at) ==> Named(h, w.mem))
    && (w.recovering && (w.at.Validated? || Replacing(w.at)) ==> w.source == h.clean)
    && (w.at == MarkingMedia || w.at == MovingOut || w.at.MovingIn? ==> w.source.media.Some?)
    && (MediaInPlace(w.at) && w.source.media.Some? ==> h.media == w.source.media)
    && (w.at.Verifying? || w.at == Auditing ==> h.db == w.source.db)
    && (w.at.Importing? && ClientFinished(h, w.at.client, Done) ==> h.db == w.source.db)
  }

  ghost predicate CompleteKept(h: Host, w: Process)
    requires w.Window?
  {
    && (w.complete ==> w.at == Leaving(true) || w.at.Closing?)
    && (w.complete && w.at.Leaving? ==>
         !w.mem.dirty && Dirty(h.marker) && Restored(h, w) && (w.recovering ==> w.source == h.clean))
  }

  ghost predicate ProcessInv(h: Host, proc: Process) {
    match proc
    case Request(_, _) => RequestInv(h, proc)
    case Client(_, _) => ClientInv(h, proc)
    case Window(_, _, _, _, _, _) => MarkerKept(h, proc) && SourceKept(h, proc) && CompleteKept(h, proc)
  }

  ghost predicate Processes(h: Host) {
    forall p :: p in h.procs ==> ProcessInv(h, h.procs[p])
  }

  ghost predicate Inv(h: Host) {
    Locks(h.procs) && DataSafe(h) && Processes(h)
  }

  // ---------- frames ----------

  /** A holder of the controller may do what it likes with the disk: whoever else is there
      cares only that requests past their check do not see the marker turn dirty. */
  lemma OthersWhileHolding(h: Host, h': Host, p: int)
    requires Locks(h.procs) && Processes(h) && p in h.procs && HoldsController(h.procs[p]) && !h.procs[p].Client?
    requires h.procs[p].Window? ==> ClientStopped(h, ClientOf(h.procs[p].at))
    requires Dirty(h'.marker) ==> Dirty(h.marker) || HoldsExclusive(h.procs[p])
    ensures forall q :: q in h.procs && q != p ==> ProcessInv(h', h.procs[q])
  {
    forall q | q in h.procs && q != p ensures ProcessInv(h', h.procs[q]) {
      assert ProcessInv(h, h.procs[q]);
      assert HoldsController(h.procs[q]) ==> Linked(h.procs, p, q) || Linked(h.procs, q, p);
      if h.procs[q].Request? && Dirty(h'.marker) && !Dirty(h.marker) { assert !HoldsShared(h.procs[q]); }
    }
  }

  /** Replacing one process without touching the disk matters to no other process. */
  lemma OthersSameDisk(h: Host, p: int, procs: map<int, Process>)
    requires Processes(h)
    requires forall q :: q in procs && q != p ==> q in h.procs && procs[q] == h.procs[q]
    requires p in procs ==> ProcessInv(h.(procs := procs), procs[p])
    requires forall c ::
               c in procs && procs[c].Client? && procs[c].status == Done ==> c in h.procs && h.procs[c] == procs[c]
    ensures Processes(h.(procs := procs))
  {
    var h' := h.(procs := procs);
    forall q | q in procs && q != p ensures ProcessInv(h', procs[q]) {
      assert ProcessInv(h, h.procs[q]);
    }
  }

  lemma LocksGone(procs: map<int, Process>, p: int)
    requires Locks(procs) && p in procs && !procs[p].Client?
    ensures Locks(procs - {p})
  {
    var procs' := procs - {p};
    assert forall q :: q in procs' ==> q in procs && procs'[q] == procs[q];
    assert forall q, c :: q in procs' && Linked(procs', q, c) ==> Linked(procs, q, c);
  }

  lemma LocksPutRequest(procs: map<int, Process>, p: int, r: Process)
    requires Locks(procs) && r.Request? && (p in procs ==> procs[p].Request?)
    requires HoldsController(r) ==>
               (p in procs && HoldsController(procs[p])) || forall q :: q in procs ==> !HoldsController(procs[q])
    requires HoldsShared(r) ==>
               (p in procs && HoldsShared(procs[p])) || forall q :: q in procs ==> !HoldsExclusive(procs[q])
    requires IsInside(r) ==> forall c :: c in procs ==> !IsRunning(procs[c])
    ensures Locks(procs[p := r])
  {
    var procs' := procs[p := r];
    assert forall q, c :: q in procs' && Linked(procs', q, c) ==> q in procs && Linked(procs, q, c);
    assert forall q, c :: q in procs && q != p && Linked(procs, q, c) ==> Linked(procs', q, c);
  }

  /** A window that moves on without a running client. */
  lemma LocksPutWindow(procs: map<int, Process>, p: int, w: Process)
    requires Locks(procs) && w.Window? && ClientOf(w.at) == None && (p in procs ==> procs[p].Window?)
    requires p in procs && ClientOf(procs[p].at).Some? && ClientOf(procs[p].at).value in procs ==>
               !IsRunning(procs[ClientOf(procs[p].at).value])
    requires HoldsController(w) ==>
               (p in procs && HoldsController(procs[p])) || forall q :: q in procs ==> !HoldsController(procs[q])
    requires HoldsExclusive(w) ==>
               (p in procs && HoldsExclusive(procs[p])) || forall q :: q in procs ==> !HoldsShared(procs[q])
    ensures Locks(procs[p := w])
  {
    var procs' := procs[p := w];
    assert forall q, c :: q in procs' && Linked(procs', q, c) ==> q != p && Linked(procs, q, c);
    assert forall q, c :: q in procs && q != p && Linked(procs, q, c) ==> Linked(procs', q, c);
    forall q | q in procs' && q != p && HoldsController(procs'[q]) && HoldsController(w)
      ensures Linked(procs', q, p) || Linked(procs', p, q)
    {
      assert Linked(procs, p, q) || Linked(procs, q, p);
    }
  }

  // ---------- requests keep the invariants ----------

  lemma GoneKeepsInv(h: Host, p: int)
    requires Inv(h) && p in h.procs && !h.procs[p].Client?
    ensures Inv(Gone(h, p))
  {
    LocksGone(h.procs, p);
    OthersSameDisk(h, p, h.procs - {p});
  }

  lemma NoClientWhileHolding(procs: map<int, Process>, p: int)
    requires Locks(procs) && p in procs && procs[p].Request? && HoldsController(procs[p])
    ensures forall c :: c in procs ==> !IsRunning(procs[c])
  {
    forall c | c in procs ensures !IsRunning(procs[c]) {
      assert c != p && HoldsController(procs[c]) ==> Linked(procs, p, c) || Linked(procs, c, p);
    }
  }

  lemma RequestMoved(h: Host, p: int, r: Process)
    requires Inv(h) && p in h.procs && h.procs[p].Request? && r.Request? && RequestInv(h, r)
    requires HoldsController(r) ==> HoldsController(h.procs[p]) || ControllerFree(h)
    requires HoldsShared(r) ==> HoldsShared(h.procs[p]) || NobodyExclusive(h)
    requires IsInside(r) ==> h.marker == None || HoldsController(h.procs[p])
    ensures Inv(Put(h, p, r))
  {
    if IsInside(r) {
      forall c | c in h.procs ensures !IsRunning(h.procs[c]) {
        assert ProcessInv(h, h.procs[c]);
        if HoldsController(h.procs[p]) { NoClientWhileHolding(h.procs, p); }
      }
    }
    LocksPutRequest(h.procs, p, r);
    OthersSameDisk(h, p, h.procs[p := r]);
  }

  lemma ClearingKeepsInv(h: Host, p: int)
    requires Inv(h) && p in h.procs && h.procs[p].Request? && h.procs[p].point == Clearing
    ensures Inv(AskNext(h, p, h.procs[p]))
  {
    var h' := AskNext(h, p, h.procs[p]);
    assert ProcessInv(h, h.procs[p]);
    LocksPutRequest(h.procs, p, h.procs[p].(point := Dropping));
    OthersWhileHolding(h, h', p);
  }

  lemma AskKeepsInv(h: Host, p: int)
    requires Inv(h) && p in h.procs && h.procs[p].Request?
    ensures Inv(AskNext(h, p, h.procs[p]))
  {
    var r := h.procs[p];
    assert ProcessInv(h, r);
    if r.point == Clearing {
      ClearingKeepsInv(h, p);
    } else if p in AskNext(h, p, r).procs {
      RequestMoved(h, p, AskNext(h, p, r).procs[p]);
    } else {
      GoneKeepsInv(h, p);
    }
  }

  /** A request inside works on accepted content: no window is in its body, no import runs. */
  lemma ServeKeepsInv(h: Host, p: int, db: int, media: Option<int>, kept: set<int>)
    requires Inv(h) && Enabled(h, Serve(p, db, media, kept))
    ensures Inv(Next(h, Serve(p, db, media, kept)))
  {
    var h' := Next(h, Serve(p, db, media, kept));
    assert ProcessInv(h, h.procs[p]);
    forall q | q in h'.procs ensures ProcessInv(h', h'.procs[q]) {
      assert ProcessInv(h, h.procs[q]);
      assert !HoldsExclusive(h.procs[q]);
    }
  }

  // ---------- windows keep the invariants ----------

  /** What one action may leave behind: the window's own facts and safe data. */
  ghost predicate OwnInv(h: Host, w: Process) {
    ProcessInv(h, w) && DataSafe(h)
  }

  lemma WindowMoved(h: Host, h': Host, p: int, w: Process)
    requires Inv(h) && p in h.procs && h.procs[p].Window? && HoldsController(h.procs[p])
             && ClientStopped(h, ClientOf(h.procs[p].at))
    requires h'.procs == h.procs[p := w] && w.Window? && HoldsController(w) && ClientOf(w.at) == None
    requires HoldsExclusive(w) ==> HoldsExclusive(h.procs[p]) || NobodyShared(h)
    requires Dirty(h'.marker) ==> Dirty(h.marker) || HoldsExclusive(h.procs[p])
    requires OwnInv(h', w)
    ensures Inv(h')
  {
    LocksPutWindow(h.procs, p, w);
    OthersWhileHolding(h, h', p);
  }

  /** The window moved on without giving up the controller, and marks only under exclusion. */
  predicate StaysInControl(h: Host, h': Host, p: int)
    requires p in h.procs
  {
    && p in h'.procs && h'.procs == h.procs[p := h'.procs[p]] && h'.procs[p].Window?
    && HoldsController(h'.procs[p]) && ClientOf(h'.procs[p].at) == None
    && (HoldsExclusive(h'.procs[p]) ==> HoldsExclusive(h.procs[p]) || NobodyShared(h))
    && (Dirty(h'.marker) ==> Dirty(h.marker) || HoldsExclusive(h.procs[p]))
  }

  predicate Acting(h: Host, p: int) {
    p in h.procs && h.procs[p].Window?
  }

  predicate Entering(at: WindowAt) {
    at == TakingController || at == Reading || at == Draining || at == Waiting
  }

  lemma EnterOwn(h: Host, p: int)
    requires Inv(h) && Acting(h, p) && GoEnabled(h, h.procs[p]) && Entering(h.procs[p].at)
    ensures var h' := GoNext(h, p, h.procs[p]); p in h'.procs ==> OwnInv(h', h'.procs[p])
  {
    assert ProcessInv(h, h.procs[p]);
  }

  lemma CheckOwn(h: Host, p: int)
    requires Inv(h) && Acting(h, p) && h.procs[p].at == Checking
    ensures var h' := CheckNext(h, p, h.procs[p]); OwnInv(h', h'.procs[p])
  {
    assert ProcessInv(h, h.procs[p]);
  }

  predicate Marking(at: WindowAt) {
    at.Validated? || at == MarkingMedia || at.MarkingDatabase?
  }

  lemma MarkOwn(h: Host, p: int)
    requires Inv(h) && Acting(h, p) && Marking(h.procs[p].at)
    ensures var h' := GoNext(h, p, h.procs[p]); OwnInv(h', h'.procs[p])
  {
    assert ProcessInv(h, h.procs[p]);
  }

  lemma MoveOwn(h: Host, p: int)
    requires Inv(h) && Acting(h, p) && (h.procs[p].at == MovingOut || h.procs[p].at.MovingIn? || h.procs[p].at.Undoing?)
    ensures var h' := GoNext(h, p, h.procs[p]); OwnInv(h', h'.procs[p])
  {
    assert ProcessInv(h, h.procs[p]);
  }

  lemma ChangeOwn(h: Host, p: int)
    requires Inv(h) && Acting(h, p) && GoEnabled(h, h.procs[p])
    requires h.procs[p].at.Importing? || h.procs[p].at.Verifying? || h.procs[p].at == Auditing
    ensures var h' := GoNext(h, p, h.procs[p]); OwnInv(h', h'.procs[p])
  {
    assert ProcessInv(h, h.procs[p]);
  }

  lemma LeaveOwn(h: Host, p: int)
    requires Inv(h) && Acting(h, p) && (h.procs[p].at.Leaving? || (h.procs[p].at.Closing? && h.procs[p].at.held))
    ensures var h' := GoNext(h, p, h.procs[p]); OwnInv(h', h'.procs[p])
  {
    assert ProcessInv(h, h.procs[p]);
  }

  lemma GoOwn(h: Host, p: int)
    requires Inv(h) && Enabled(h, Go(p))
    ensures var h' := Next(h, Go(p)); p in h'.procs ==> OwnInv(h', h'.procs[p])
  {
    var at := h.procs[p].at;
    if Entering(at) { EnterOwn(h, p); }
    else if at == Checking { CheckOwn(h, p); }
    else if Marking(at) { MarkOwn(h, p); }
    else if at == MovingOut || at.MovingIn? || at.Undoing? { MoveOwn(h, p); }
    else if Changing(at) { ChangeOwn(h, p); }
    else if at != Closing(false) { LeaveOwn(h, p); }
  }

  lemma GoKeepsInv(h: Host, p: int)
    requires Inv(h) && Enabled(h, Go(p))
    ensures Inv(Next(h, Go(p)))
  {
    if p !in Next(h, Go(p)).procs {
      GoneKeepsInv(h, p);
    } else {
      GoOwn(h, p);
      if h.procs[p].at == TakingController { TakeKeepsInv(h, p); } else { GoMoved(h, p); }
    }
  }

  lemma TakeKeepsInv(h: Host, p: int)
    requires Inv(h) && Enabled(h, Go(p)) && h.procs[p].at == TakingController && ControllerFree(h)
    ensures Inv(Next(h, Go(p)))
  {
    var w := h.procs[p].(at := Reading);
    assert ProcessInv(h, h.procs[p]);
    LocksPutWindow(h.procs, p, w);
    OthersSameDisk(h, p, h.procs[p := w]);
  }

  lemma GoMoved(h: Host, p: int)
    requires Inv(h) && Enabled(h, Go(p)) && h.procs[p].at != TakingController
    requires p in Next(h, Go(p)).procs && OwnInv(Next(h, Go(p)), Next(h, Go(p)).procs[p])
    ensures Inv(Next(h, Go(p)))
  {
    assert ProcessInv(h, h.procs[p]);
    GoStays(h, p);
    WindowMoved(h, Next(h, Go(p)), p, Next(h, Go(p)).procs[p]);
  }

  lemma GoStays(h: Host, p: int)
    requires Acting(h, p) && GoEnabled(h, h.procs[p]) && h.procs[p].at != TakingController && ProcessInv(h, h.procs[p])
    requires p in GoNext(h, p, h.procs[p]).procs
    ensures StaysInControl(h, GoNext(h, p, h.procs[p]), p) && HoldsController(h.procs[p])
    ensures ClientStopped(h, ClientOf(h.procs[p].at))
  {}

  lemma MissEarlyOwn(h: Host, p: int)
    requires Inv(h) && Acting(h, p) && !Replacing(h.procs[p].at)
    ensures var h' := MissNext(h, p, h.procs[p]); p in h'.procs ==> OwnInv(h', h'.procs[p])
  {
    assert ProcessInv(h, h.procs[p]);
  }

  lemma MissMarkOwn(h: Host, p: int)
    requires Inv(h) && Acting(h, p) && (h.procs[p].at == MarkingMedia || h.procs[p].at.MarkingDatabase?)
    ensures var h' := MissNext(h, p, h.procs[p]); OwnInv(h', h'.procs[p])
  {
    assert ProcessInv(h, h.procs[p]);
  }

  lemma MissOwn(h: Host, p: int)
    requires Inv(h) && Acting(h, p) && Changing(h.procs[p].at)
    ensures var h' := MissNext(h, p, h.procs[p]); p in h'.procs ==> OwnInv(h', h'.procs[p])
  {
    assert ProcessInv(h, h.procs[p]);
  }

  lemma MissKeepsInv(h: Host, p: int)
    requires Inv(h) && Enabled(h, Miss(p))
    ensures Inv(Next(h, Miss(p)))
  {
    var w, h' := h.procs[p], Next(h, Miss(p));
    assert ProcessInv(h, w);
    if p !in h'.procs {
      GoneKeepsInv(h, p);
    } else {
      if Changing(w.at) { MissOwn(h, p); } else if Replacing(w.at) { MissMarkOwn(h, p); } else { MissEarlyOwn(h, p); }
      MissMoved(h, p);
    }
  }

  lemma MissMoved(h: Host, p: int)
    requires Inv(h) && Enabled(h, Miss(p)) && p in MissNext(h, p, h.procs[p]).procs
    requires OwnInv(MissNext(h, p, h.procs[p]), MissNext(h, p, h.procs[p]).procs[p])
    ensures Inv(MissNext(h, p, h.procs[p]))
  {
    var h' := MissNext(h, p, h.procs[p]);
    assert ProcessInv(h, h.procs[p]);
    if h' != h {
      MissStays(h, p);
      WindowMoved(h, h', p, h'.procs[p]);
    }
  }

  lemma MissStays(h: Host, p: int)
    requires Acting(h, p) && ClientStopped(h, ClientOf(h.procs[p].at)) && ProcessInv(h, h.procs[p])
    requires p in MissNext(h, p, h.procs[p]).procs && MissNext(h, p, h.procs[p]) != h
    ensures StaysInControl(h, MissNext(h, p, h.procs[p]), p) && HoldsController(h.procs[p])
  {}

  predicate FailsLate(at: WindowAt) {
    at == Draining || at == Checking || at.Validated? || at == MarkingMedia || at.MovingIn? || at.MarkingDatabase?
    || at.Verifying? || at.Undoing?
  }

  lemma MissLateOwn(h: Host, p: int)
    requires Inv(h) && Acting(h, p) && FailsLate(h.procs[p].at)
    ensures var h' := MissLateNext(h, p, h.procs[p]); OwnInv(h', h'.procs[p])
  {
    assert ProcessInv(h, h.procs[p]);
  }

  lemma MissLateStays(h: Host, p: int)
    requires Acting(h, p) && ClientStopped(h, ClientOf(h.procs[p].at))
    requires ProcessInv(h, h.procs[p]) && FailsLate(h.procs[p].at)
    ensures StaysInControl(h, MissLateNext(h, p, h.procs[p]), p) && HoldsController(h.procs[p])
  {}

  lemma MissLateKeepsInv(h: Host, p: int)
    requires Inv(h) && Enabled(h, MissLate(p))
    ensures Inv(Next(h, MissLate(p)))
  {
    var w, h' := h.procs[p], Next(h, MissLate(p));
    assert ProcessInv(h, w);
    if FailsLate(w.at) {
      MissLateOwn(h, p);
      MissLateStays(h, p);
      WindowMoved(h, h', p, h'.procs[p]);
    } else {
      MissKeepsInv(h, p);
    }
  }

  lemma SavedKeepsInv(h: Host, p: int, id: int)
    requires Inv(h) && Enabled(h, Saved(p, id))
    ensures Inv(Next(h, Saved(p, id)))
  {
    var w, h' := h.procs[p], Next(h, Saved(p, id));
    assert ProcessInv(h, w);
    WindowMoved(h, h', p, h'.procs[p]);
  }

  // ---------- clients keep the invariants ----------

  lemma LocksSpawn(procs: map<int, Process>, p: int, c: int, w: Process, client: Process)
    requires Locks(procs) && p in procs && procs[p].Window? && c !in procs
    requires HoldsController(procs[p]) && HoldsExclusive(procs[p]) && ClientOf(procs[p].at) == None
    requires w.Window? && InBody(w.at) && ClientOf(w.at) == Some(c)
    requires forall q :: q in procs && IsInside(procs[q]) ==> HoldsShared(procs[q])
    requires client.Client? && client.content == if w.at.Importing? then Some(w.source.db) else None
    ensures Locks(procs[c := client][p := w])
  {
    var procs' := procs[c := client][p := w];
    forall q | q in procs && q != p ensures !HoldsController(procs[q]) && !HoldsShared(procs[q]) {
      assert HoldsController(procs[q]) ==> Linked(procs, p, q) || Linked(procs, q, p);
    }
    assert forall q, d :: q in procs' && q != p && Linked(procs', q, d) ==> Linked(procs, q, d);
  }

  lemma SpawnKeepsInv(h: Host, p: int, c: int)
    requires Inv(h) && Enabled(h, Spawn(p, c))
    ensures Inv(Next(h, Spawn(p, c)))
  {
    var w, h' := h.procs[p], Next(h, Spawn(p, c));
    assert ProcessInv(h, w);
    forall q | q in h.procs && IsInside(h.procs[q]) ensures HoldsShared(h.procs[q]) {
      assert ProcessInv(h, h.procs[q]);
    }
    LocksSpawn(h.procs, p, c, h'.procs[p], h'.procs[c]);
    OthersWhileHolding(h, h', p);
    SpawnOwn(h, p, c);
  }

  lemma SpawnOwn(h: Host, p: int, c: int)
    requires Enabled(h, Spawn(p, c)) && ProcessInv(h, h.procs[p])
    ensures ProcessInv(Next(h, Spawn(p, c)), Next(h, Spawn(p, c)).procs[p])
            && ProcessInv(Next(h, Spawn(p, c)), Next(h, Spawn(p, c)).procs[c])
  {}

  lemma LocksClientStops(procs: map<int, Process>, c: int, status: ClientStatus)
    requires Locks(procs) && c in procs && procs[c].Client? && status != Running
    ensures Locks(procs[c := procs[c].(status := status)])
  {
    var procs' := procs[c := procs[c].(status := status)];
    assert forall q, d :: q in procs' && Linked(procs', q, d) <==> q in procs && Linked(procs, q, d);
  }

  /** Only the window that started a running client can be past the controller. */
  lemma RunningClient(h: Host, c: int, q: int)
    requires Locks(h.procs) && c in h.procs && IsRunning(h.procs[c]) && q in h.procs && h.procs[q].Window?
             && h.procs[q].at != TakingController
    ensures ClientOf(h.procs[q].at) == Some(c)
  {
    assert Linked(h.procs, q, c) || Linked(h.procs, c, q);
  }

  lemma ClientFailsKeepsInv(h: Host, c: int)
    requires Inv(h) && Enabled(h, ClientFails(c))
    ensures Inv(Next(h, ClientFails(c)))
  {
    LocksClientStops(h.procs, c, Failed);
    OthersSameDisk(h, c, h.procs[c := h.procs[c].(status := Failed)]);
  }

  lemma ClientWritesKeepsInv(h: Host, c: int, db: int)
    requires Inv(h) && Enabled(h, ClientWrites(c, db))
    ensures Inv(Next(h, ClientWrites(c, db)))
  {
    var h' := Next(h, ClientWrites(c, db));
    assert ProcessInv(h, h.procs[c]);
    forall q | q in h'.procs ensures ProcessInv(h', h'.procs[q]) {
      assert ProcessInv(h, h.procs[q]);
      if h.procs[q].Window? && h.procs[q].at != TakingController { RunningClient(h, c, q); }
    }
  }

  lemma ClientDoneKeepsInv(h: Host, c: int)
    requires Inv(h) && Enabled(h, ClientDone(c))
    ensures Inv(Next(h, ClientDone(c)))
  {
    var h' := Next(h, ClientDone(c));
    assert ProcessInv(h, h.procs[c]);
    LocksClientStops(h.procs, c, Done);
    forall q | q in h'.procs ensures ProcessInv(h', h'.procs[q]) {
      assert ProcessInv(h, h.procs[q]);
      if h.procs[q].Window? && h.procs[q].at != TakingController {
        RunningClient(h, c, q);
        assert Linked(h.procs, q, c);
      }
    }
  }

  lemma NewProcessKeepsInv(h: Host, p: int, proc: Process)
    requires Inv(h) && p !in h.procs
             && (proc == Request(false, ReadingState)
                 || (proc.Window? && proc.at == TakingController && !proc.complete))
    ensures Inv(Put(h, p, proc))
  {
    if proc.Request? { LocksPutRequest(h.procs, p, proc); } else { LocksPutWindow(h.procs, p, proc); }
    OthersSameDisk(h, p, h.procs[p := proc]);
  }

  lemma StepKeepsInv(h: Host, step: Step)
    requires Inv(h) && Enabled(h, step)
    ensures Inv(Next(h, step))
  {
    match step
    case Arrive(p) => NewProcessKeepsInv(h, p, Request(false, ReadingState));
    case Ask(p) => AskKeepsInv(h, p);
    case Serve(p, db, media, kept) => ServeKeepsInv(h, p, db, media, kept);
    case Start(p, job) => NewProcessKeepsInv(h, p, NewWindow(job));
    case Go(p) => GoKeepsInv(h, p);
    case Miss(p) => MissKeepsInv(h, p);
    case MissLate(p) => MissLateKeepsInv(h, p);
    case Spawn(p, c) => SpawnKeepsInv(h, p, c);
    case Saved(p, id) => SavedKeepsInv(h, p, id);
    case ClientWrites(c, db) => ClientWritesKeepsInv(h, c, db);
    case ClientDone(c) => ClientDoneKeepsInv(h, c);
    case ClientFails(c) => ClientFailsKeepsInv(h, c);
    case Crash(p) => GoneKeepsInv(h, p);
  }

  lemma {:induction false} RunKeepsInv(h: Host, steps: seq<Step>)
    requires Inv(h)
    ensures Inv(Run(h, steps))
  {
    if steps != [] {
      var before, last := Run(h, steps[..|steps| - 1]), steps[|steps| - 1];
      RunKeepsInv(h, steps[..|steps| - 1]);
      if Enabled(before, last) { StepKeepsInv(before, last); }
    }
  }

  lemma InitialInv(h: Host)
    requires Initial(h)
    ensures Inv(h)
  {}

  // ---------- the guarantees ----------

  /** No request is inside while a window body or any client of one runs, or the marker is dirty. */
  lemma {:induction false} NobodyInsideDuringMaintenance(h: Host, steps: seq<Step>, p: int, q: int)
    requires Initial(h)
    requires p in Run(h, steps).procs && IsInside(Run(h, steps).procs[p])
    ensures !Dirty(Run(h, steps).marker)
    ensures q in Run(h, steps).procs ==>
              !IsRunning(Run(h, steps).procs[q])
              && (Run(h, steps).procs[q].Window? ==> !InBody(Run(h, steps).procs[q].at))
  {
    InitialInv(h);
    RunKeepsInv(h, steps);
    var now := Run(h, steps);
    assert ProcessInv(now, now.procs[p]);
    assert q in now.procs && HoldsExclusive(now.procs[q]) ==> !HoldsShared(now.procs[p]);
  }

  /** At most one window is past the controller, and an orphaned client keeps every window out. */
  lemma {:induction false} OneWindowAtATime(h: Host, steps: seq<Step>, p: int, q: int)
    requires Initial(h) && p != q && p in Run(h, steps).procs && q in Run(h, steps).procs
    requires Run(h, steps).procs[p].Window? && Run(h, steps).procs[p].at != TakingController
    ensures Run(h, steps).procs[q].Window? ==> Run(h, steps).procs[q].at == TakingController
    ensures IsRunning(Run(h, steps).procs[q]) ==> ClientOf(Run(h, steps).procs[p].at) == Some(q)
  {
    InitialInv(h);
    RunKeepsInv(h, steps);
    var now := Run(h, steps);
    assert HoldsController(now.procs[q]) ==> Linked(now.procs, p, q) || Linked(now.procs, q, p);
    if IsRunning(now.procs[q]) { RunningClient(now, q, p); }
  }

  /** Whatever failed or was killed: content that is not the accepted one is covered by a
      dirty marker that names a backup of the accepted content. */
  lemma {:induction false} ContentIsRecoverable(h: Host, steps: seq<Step>)
    requires Initial(h)
    ensures var now := Run(h, steps);
            Snapshot(now.db, now.media) != now.clean ==> Dirty(now.marker) && Named(now, now.marker.value)
  {
    InitialInv(h);
    RunKeepsInv(h, steps);
  }

  /** Only a window that verified its restore and completed removes a dirty marker. */
  lemma DirtyMarkerRemoved(h: Host, step: Step)
    requires Inv(h) && Enabled(h, step) && Dirty(h.marker)
    ensures !Dirty(Next(h, step).marker) ==>
              step.Go? && h.procs[step.p].Window? && h.procs[step.p].at == Leaving(true) && h.procs[step.p].complete
  {
    match step
    case Ask(p) => assert ProcessInv(h, h.procs[p]);
    case Go(p) => assert ProcessInv(h, h.procs[p]);
    case Miss(p) => assert ProcessInv(h, h.procs[p]);
    case MissLate(p) => assert ProcessInv(h, h.procs[p]);
    case _ =>
  }

  /** What is accepted changes only by requests and by windows that leave: a restore that
      completed is accepted with the content of its backup, any other window changes nothing. */
  lemma AcceptedContent(h: Host, step: Step)
    requires Inv(h) && Enabled(h, step) && Next(h, step).clean != h.clean
    ensures step.Serve?
            || (step.Go? && h.procs[step.p].Window? && h.procs[step.p].complete && Restored(h, h.procs[step.p])
                            && Next(h, step).clean == Snapshot(h.db, h.media))
  {
    if step.Go? { assert ProcessInv(h, h.procs[step.p]); }
  }

  /** A recovery works on the recorded safety backup and nothing else. */
  lemma RecoveryUsesSafetyBackup(h: Host, p: int)
    requires Inv(h) && p in h.procs && h.procs[p].Window? && h.procs[p].recovering
    requires h.procs[p].at.Validated? || Replacing(h.procs[p].at)
    ensures h.procs[p].source == h.clean && h.procs[p].mem.safety.Some?
    ensures h.procs[p].mem.safety.value in h.backups && h.backups[h.procs[p].mem.safety.value] == h.clean
  {
    assert ProcessInv(h, h.procs[p]);
  }

  // ---------- what a recovery brings back ----------

  /** A recovery that holds the controller and is about to read the dirty marker. */
  ghost predicate RecoveryBegins(h: Host, p: int) {
    && p in h.procs && h.procs[p].Window? && h.procs[p].at == Reading && h.procs[p].job.restore
    && h.procs[p].job.recover
    && Dirty(h.marker)
  }

  /** The path set aside by a media swap. */
  function Aside(at: WindowAt): Option<int> {
    match at
    case MovingIn(aside) => aside
    case MarkingDatabase(aside) => aside
    case Importing(_, aside) => aside
    case Verifying(aside) => aside
    case Undoing(aside) => aside
    case _ => None
  }

  /** The recovery of `p` has not left yet: nothing is accepted meanwhile, and when the accepted
      content has no media tree, the one that is there stays. */
  ghost predicate RecoveryGoesOn(begun: Host, h: Host, p: int) {
    && p in h.procs && h.procs[p].Window?
    && (!h.procs[p].at.Closing? ==>
          && HoldsController(h.procs[p]) && Dirty(h.marker) && h.clean == begun.clean
          && (h.procs[p].at == Reading || h.procs[p].recovering)
          && (h.clean.media == None ==> h.media == begun.media && Aside(h.procs[p].at) == None))
  }

  /** Other processes leave marker, media, accepted content and the recovery itself alone. */
  lemma OthersDuringRecovery(h: Host, step: Step, p: int)
    requires Inv(h) && Enabled(h, step) && p in h.procs && h.procs[p].Window? && HoldsController(h.procs[p])
             && Dirty(h.marker)
    requires !(step.Go? || step.Miss? || step.MissLate? || step.Spawn? || step.Saved? || step.Crash?) || step.p != p
    ensures var h' := Next(h, step);
            && Dirty(h'.marker) && h'.media == h.media && h'.clean == h.clean
            && p in h'.procs && h'.procs[p] == h.procs[p]
  {
    NobodyInsideWhileDirty(h);
    match step
    case Ask(q) => assert ProcessInv(h, h.procs[q]);
    case Go(q) => OtherWindowWaits(h, p, q);
    case Miss(q) => OtherWindowWaits(h, p, q);
    case MissLate(q) => OtherWindowWaits(h, p, q);
    case Spawn(q, _) => OtherWindowWaits(h, p, q);
    case Saved(q, _) => OtherWindowWaits(h, p, q);
    case _ =>
  }

  lemma NobodyInsideWhileDirty(h: Host)
    requires Inv(h)
    ensures Dirty(h.marker) ==> forall q :: q in h.procs ==> !IsInside(h.procs[q])
  {
    forall q | q in h.procs && IsInside(h.procs[q]) ensures !Dirty(h.marker) { assert ProcessInv(h, h.procs[q]); }
  }

  lemma OtherWindowWaits(h: Host, p: int, q: int)
    requires Inv(h) && p in h.procs && h.procs[p].Window? && HoldsController(h.procs[p])
    requires q in h.procs && h.procs[q].Window? && q != p
    ensures h.procs[q].at == TakingController && !ControllerFree(h)
  {
    assert HoldsController(h.procs[q]) ==> Linked(h.procs, p, q) || Linked(h.procs, q, p);
  }

  /** The recovery's own steps, up to the one that leaves. */
  lemma RecoveryGo(begun: Host, h: Host, p: int)
    requires Inv(h) && Enabled(h, Go(p)) && RecoveryBegins(begun, p) && RecoveryGoesOn(begun, h, p)
    requires !h.procs[p].at.Closing? && p in Next(h, Go(p)).procs
    ensures RecoveryGoesOn(begun, Next(h, Go(p)), p)
  {
    assert ProcessInv(h, h.procs[p]);
  }

  lemma RecoveryMiss(begun: Host, h: Host, p: int)
    requires Inv(h) && Enabled(h, Miss(p)) && RecoveryBegins(begun, p) && RecoveryGoesOn(begun, h, p)
    requires !h.procs[p].at.Closing? && p in Next(h, Miss(p)).procs
    ensures RecoveryGoesOn(begun, Next(h, Miss(p)), p)
  {
    assert ProcessInv(h, h.procs[p]);
  }

  lemma RecoveryMissLate(begun: Host, h: Host, p: int)
    requires Inv(h) && Enabled(h, MissLate(p)) && RecoveryBegins(begun, p) && RecoveryGoesOn(begun, h, p)
    requires !h.procs[p].at.Closing? && p in Next(h, MissLate(p)).procs
    ensures RecoveryGoesOn(begun, Next(h, MissLate(p)), p)
  {
    assert ProcessInv(h, h.procs[p]);
  }

  lemma RecoverySpawn(begun: Host, h: Host, p: int, c: int)
    requires Enabled(h, Spawn(p, c)) && RecoveryBegins(begun, p) && RecoveryGoesOn(begun, h, p)
    ensures p in Next(h, Spawn(p, c)).procs && RecoveryGoesOn(begun, Next(h, Spawn(p, c)), p)
  {}

  lemma OwnRecoveryStep(begun: Host, h: Host, step: Step, p: int)
    requires Inv(h) && Enabled(h, step) && RecoveryBegins(begun, p) && RecoveryGoesOn(begun, h, p)
    requires !h.procs[p].at.Closing? && p in Next(h, step).procs
    requires (step.Go? || step.Miss? || step.MissLate? || step.Spawn?) && step.p == p
    ensures RecoveryGoesOn(begun, Next(h, step), p)
  {
    match step
    case Go(_) => RecoveryGo(begun, h, p);
    case Miss(_) => RecoveryMiss(begun, h, p);
    case MissLate(_) => RecoveryMissLate(begun, h, p);
    case Spawn(_, c) => RecoverySpawn(begun, h, p, c);
    case _ =>
  }

  lemma RecoveryStep(begun: Host, h: Host, step: Step, p: int)
    requires Inv(h) && Enabled(h, step) && RecoveryBegins(begun, p) && RecoveryGoesOn(begun, h, p)
    requires p in Next(h, step).procs
    ensures RecoveryGoesOn(begun, Next(h, step), p)
  {
    assert ProcessInv(h, h.procs[p]);
    if h.procs[p].at.Closing? {
      ClosingGoesOn(h, step, p);
    } else if (step.Go? || step.Miss? || step.MissLate? || step.Spawn?) && step.p == p {
      OwnRecoveryStep(begun, h, step, p);
    } else {
      OthersDuringRecovery(h, step, p);
    }
  }

  lemma OwnClosing(h: Host, step: Step, p: int)
    requires Enabled(h, step) && p in h.procs && h.procs[p].Window? && h.procs[p].at.Closing?
    requires (step.Go? || step.Miss? || step.MissLate?) && step.p == p && p in Next(h, step).procs
    ensures Next(h, step).procs[p].Window? && Next(h, step).procs[p].at.Closing?
  {}

  lemma ClosingGoesOn(h: Host, step: Step, p: int)
    requires Enabled(h, step) && p in h.procs && h.procs[p].Window? && h.procs[p].at.Closing?
    requires p in Next(h, step).procs
    ensures Next(h, step).procs[p].Window? && Next(h, step).procs[p].at.Closing?
  {
    if (step.Go? || step.Miss? || step.MissLate?) && step.p == p {
      OwnClosing(h, step, p);
    } else {
      assert Next(h, step).procs[p] == h.procs[p];
    }
  }

  /** The process lives through the whole run. */
  ghost predicate LivesThrough(h: Host, steps: seq<Step>, p: int) {
    forall i :: 0 <= i <= |steps| ==> p in Run(h, steps[..i]).procs
  }

  lemma {:induction false} RecoveryRun(begun: Host, steps: seq<Step>, p: int)
    requires Inv(begun) && RecoveryBegins(begun, p) && LivesThrough(begun, steps, p)
    ensures RecoveryGoesOn(begun, Run(begun, steps), p)
    decreases |steps|
  {
    assert steps[..|steps|] == steps;
    if steps != [] {
      var init, last := steps[..|steps| - 1], steps[|steps| - 1];
      assert forall i :: 0 <= i <= |init| ==> init[..i] == steps[..i];
      RecoveryRun(begun, init, p);
      RunKeepsInv(begun, init);
      if Enabled(Run(begun, init), last) { RecoveryStep(begun, Run(begun, init), last, p); }
    }
  }

  /** The window of `p` has completed and is about to clear the marker. */
  ghost predicate LeavesComplete(h: Host, p: int) {
    p in h.procs && h.procs[p].Window? && h.procs[p].complete && h.procs[p].at.Leaving?
  }

  /** Whatever else runs meanwhile, a recovery that completes brings the accepted content back
      exactly when, at its beginning, the backup that the marker names has a media tree or the
      host has none. */
  lemma {:induction false} RecoveryRestores(begun: Host, steps: seq<Step>, p: int)
    requires Inv(begun) && RecoveryBegins(begun, p) && LivesThrough(begun, steps, p)
    requires LeavesComplete(Run(begun, steps), p)
    ensures Named(begun, begun.marker.value)
    ensures Next(Run(begun, steps), Go(p)).clean == begun.clean <==>
            begun.backups[begun.marker.value.safety.value].media.Some? || begun.media == None
  {
    RecoveryRun(begun, steps, p);
    RunKeepsInv(begun, steps);
    CompletedRecovery(begun, Run(begun, steps), p);
  }

  lemma CompletedRecovery(begun: Host, h: Host, p: int)
    requires Inv(h) && RecoveryGoesOn(begun, h, p) && LeavesComplete(h, p)
    ensures Next(h, Go(p)).clean == begun.clean <==> begun.clean.media.Some? || begun.media == None
  {
    assert ProcessInv(h, h.procs[p]);
  }

  // ---------- a recovery that cannot put back a missing media tree ----------

  ghost predicate Reaches(h: Host, later: Host) {
    exists steps :: Run(h, steps) == later
  }

  lemma ReachesNext(h: Host, now: Host, step: Step)
    requires Reaches(h, now) && Enabled(now, step)
    ensures Reaches(h, Next(now, step))
  {
    var steps :| Run(h, steps) == now;
    assert (steps + [step])[..|steps|] == steps;
    assert Run(h, steps + [step]) == Next(now, step);
  }

  predicate Unlocked(procs: map<int, Process>) {
    forall q :: q in procs ==> procs[q].Client? && procs[q].status != Running
  }

  function Entered(now: Host, p: int, job: Job): Host {
    var mem := Marker(job.restore, Dirty(now.marker), if now.marker.Some? then now.marker.value.safety else None);
    Put(now.(marker := Some(mem)), p, Window(job, Checking, mem, mem.dirty, Snapshot(0, None), false))
  }

  lemma WindowEnters(h: Host, now: Host, p: int, job: Job)
    requires Reaches(h, now) && p !in now.procs && Unlocked(now.procs)
             && (Dirty(now.marker) ==> job.restore && job.recover)
    ensures Reaches(h, Entered(now, p, job))
  {
    var w := NewWindow(job);
    var mem := Marker(job.restore, Dirty(now.marker), if now.marker.Some? then now.marker.value.safety else None);
    ReachesNext(h, now, Start(p, job));
    ReachesNext(h, Put(now, p, w), Go(p));
    assert Put(Put(now, p, w), p, w.(at := Reading)) == Put(now, p, w.(at := Reading));
    ReachesNext(h, Put(now, p, w.(at := Reading)), Go(p));
    var draining := w.(at := Draining, mem := mem, recovering := mem.dirty);
    assert Put(Put(now, p, w.(at := Reading)), p, draining) == Put(now, p, draining);
    WindowDrains(h, now, p, draining);
  }

  lemma WindowDrains(h: Host, now: Host, p: int, w: Process)
    requires Reaches(h, Put(now, p, w)) && p !in now.procs && Unlocked(now.procs) && w.Window? && w.at == Draining
    ensures Reaches(h, Put(now.(marker := Some(w.mem)), p, w.(at := Checking)))
  {
    var marked := now.(marker := Some(w.mem));
    ReachesNext(h, Put(now, p, w), Go(p));
    assert Put(Put(now, p, w).(marker := Some(w.mem)), p, w.(at := Waiting)) == Put(marked, p, w.(at := Waiting));
    ReachesNext(h, Put(marked, p, w.(at := Waiting)), Go(p));
    assert Put(Put(marked, p, w.(at := Waiting)), p, w.(at := Checking)) == Put(marked, p, w.(at := Checking));
  }

  lemma DumpSaved(h: Host, now: Host, p: int, c: int, id: int)
    requires Reaches(h, now) && p in now.procs && c !in now.procs && id !in now.backups
    requires now.procs[p].Window? && now.procs[p].at == Saving(None) && now.procs[p].job.restore
    ensures Reaches(h, now.(backups := now.backups[id := Snapshot(now.db, now.media)],
                            procs := now.procs[c := Client(None, Done)]
                                              [p := now.procs[p].(at := Validated(Some(id)))]))
  {
    ReachesNext(h, now, Spawn(p, c));
    var dumping := Next(now, Spawn(p, c));
    ReachesNext(h, dumping, ClientDone(c));
    var dumped := Next(dumping, ClientDone(c));
    ReachesNext(h, dumped, Saved(p, id));
    assert Next(dumped, Saved(p, id)).procs ==
             now.procs[c := Client(None, Done)][p := now.procs[p].(at := Validated(Some(id)))];
  }

  lemma Imported(h: Host, now: Host, p: int, c: int)
    requires Reaches(h, now) && p in now.procs && c !in now.procs
    requires now.procs[p].Window? && now.procs[p].at == Importing(None, None)
    ensures Reaches(h, now.(db := now.procs[p].source.db,
                            procs := now.procs[c := Client(Some(now.procs[p].source.db), Done)]
                                              [p := now.procs[p].(at := Verifying(None))]))
  {
    ReachesNext(h, now, Spawn(p, c));
    var importing := Next(now, Spawn(p, c));
    ReachesNext(h, importing, ClientDone(c));
    var done := Next(importing, ClientDone(c));
    ReachesNext(h, done, Go(p));
    assert Next(done, Go(p)).procs ==
             now.procs[c := Client(Some(now.procs[p].source.db), Done)][p := now.procs[p].(at := Verifying(None))];
  }

  const OTHER := Snapshot(7, Some(9))

  /** A host without media, and a backup that has some. */
  const BARE := Host(map[], None, 0, None, map[1 := OTHER], Snapshot(0, None))

  /** The restore of that backup, killed once the new media tree is in place. */
  const INTERRUPTED := Host(map[2 := Client(None, Done)], Some(Marker(true, true, Some(2))), 0, Some(9),
                            map[1 := OTHER, 2 := Snapshot(0, None)], Snapshot(0, None))

  const SAVED := Window(Job(true, false, 1), Validated(Some(2)), Marker(true, false, None), false, OTHER, false)
  const SAVING_HOST := BARE.(procs := map[1 := SAVED.(at := Saving(None))], marker := Some(Marker(true, false, None)))
  const SAVED_HOST := SAVING_HOST.(backups := BARE.backups[2 := Snapshot(0, None)],
                                   procs := SAVING_HOST.procs[2 := Client(None, Done)][1 := SAVED])

  lemma SavingReached()
    ensures Reaches(BARE, SAVING_HOST)
  {
    assert Run(BARE, []) == BARE;
    WindowEnters(BARE, BARE, 1, SAVED.job);
    ReachesNext(BARE, Entered(BARE, 1, SAVED.job), Go(1));
    assert Next(Entered(BARE, 1, SAVED.job), Go(1)) == SAVING_HOST;
  }

  lemma InterruptedReached()
    ensures Reaches(BARE, INTERRUPTED)
  {
    SavingReached();
    DumpSaved(BARE, SAVING_HOST, 1, 2, 2);
    MediaMoved(BARE, SAVED_HOST, SAVED);
    assert SAVED_HOST.procs - {1} == INTERRUPTED.procs;
  }

  lemma MediaMoved(h: Host, now: Host, w: Process)
    requires Reaches(h, now) && 1 in now.procs && now.procs[1] == w
    requires w.Window? && w.at == Validated(Some(2)) && w.source == OTHER && now.media == None
    ensures Reaches(h,
        now.(procs := now.procs - {1}, marker := Some(Marker(w.mem.restore, true, Some(2))), media := Some(9)))
  {
    ReachesNext(h, now, Go(1));
    var marking := Next(now, Go(1));
    ReachesNext(h, marking, Go(1));
    var movingOut := Next(marking, Go(1));
    ReachesNext(h, movingOut, Go(1));
    var movingIn := Next(movingOut, Go(1));
    ReachesNext(h, movingIn, Go(1));
    var moved := Next(movingIn, Go(1));
    ReachesNext(h, moved, Crash(1));
    assert Next(moved, Crash(1)).procs == now.procs - {1};
  }

  const RECOVERING :=
    Window(Job(true, true, 2), Verifying(None), Marker(true, true, Some(2)), true, Snapshot(0, None), false)

  lemma RecoveryMarks()
    ensures Reaches(INTERRUPTED,
                    INTERRUPTED.(procs := INTERRUPTED.procs[1 := RECOVERING.(at := Importing(None, None))]))
  {
    var job := RECOVERING.job;
    assert Run(INTERRUPTED, []) == INTERRUPTED;
    WindowEnters(INTERRUPTED, INTERRUPTED, 1, job);
    ReachesNext(INTERRUPTED, Entered(INTERRUPTED, 1, job), Go(1));
    var validated := Next(Entered(INTERRUPTED, 1, job), Go(1));
    ReachesNext(INTERRUPTED, validated, Go(1));
    var marking := Next(validated, Go(1));
    ReachesNext(INTERRUPTED, marking, Go(1));
    assert Next(marking, Go(1)).procs == INTERRUPTED.procs[1 := RECOVERING.(at := Importing(None, None))];
  }

  lemma RecoveryImports()
    ensures Reaches(INTERRUPTED,
                    INTERRUPTED.(procs := INTERRUPTED.procs[3 := Client(Some(0), Done)][1 := RECOVERING]))
  {
    RecoveryMarks();
    var importing := INTERRUPTED.(procs := INTERRUPTED.procs[1 := RECOVERING.(at := Importing(None, None))]);
    Imported(INTERRUPTED, importing, 1, 3);
    assert importing.procs[3 := Client(Some(0), Done)][1 := RECOVERING] ==
             INTERRUPTED.procs[3 := Client(Some(0), Done)][1 := RECOVERING];
  }

  /** The recovery from the safety backup completes and accepts the stray media tree. */
  lemma RecoveryKeepsStrayMedia()
    ensures exists later :: Reaches(INTERRUPTED, later) && later.marker == None
                            && INTERRUPTED.clean == Snapshot(0, None) && later.clean == Snapshot(0, Some(9))
  {
    RecoveryImports();
    WindowLeaves(INTERRUPTED, INTERRUPTED.(procs := INTERRUPTED.procs[3 := Client(Some(0), Done)][1 := RECOVERING]));
  }

  lemma WindowLeaves(h: Host, now: Host)
    requires Reaches(h, now) && 1 in now.procs && now.procs[1].Window? && now.procs[1].at == Verifying(None)
    ensures Reaches(h, now.(marker := None, clean := Snapshot(now.db, now.media),
                            procs := now.procs[1 := now.procs[1].(at := Closing(true),
                                mem := now.procs[1].mem.(dirty := false), complete := true)]))
  {
    ReachesNext(h, now, Go(1));
    var auditing := Next(now, Go(1));
    ReachesNext(h, auditing, Go(1));
    var leaving := Next(auditing, Go(1));
    ReachesNext(h, leaving, Go(1));
    assert Next(leaving, Go(1)).procs ==
             now.procs[1 := now.procs[1].(at := Closing(true), mem := now.procs[1].mem.(dirty := false),
                                          complete := true)];
  }
}
