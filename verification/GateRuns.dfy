/** What the maintenance gate lets happen: runs of a single request or window that get through.

    The other side of `MaintenanceGate`, whose laws say what never happens. Each theorem starts
    from any host that meets the conditions the source tests, takes steps of one process and its
    database clients only, and says how the host ends.
 */
module GateRuns {
  import opened RackRanges
  import opened MaintenanceGate

  /** The process that takes the step. */
  function Actor(step: Step): int {
    match step
    case Arrive(p) => p
    case Ask(p) => p
    case Serve(p, _, _, _) => p
    case Start(p, _) => p
    case Go(p) => p
    case Miss(p) => p
    case MissLate(p) => p
    case Spawn(p, _) => p
    case Saved(p, _) => p
    case ClientWrites(c, _) => c
    case ClientDone(c) => c
    case ClientFails(c) => c
    case Crash(p) => p
  }

  ghost predicate Of(steps: seq<Step>, actors: set<int>) {
    forall i :: 0 <= i < |steps| ==> Actor(steps[i]) in actors
  }

  /** Some run of these processes alone leads there. */
  ghost predicate Leads(h: Host, later: Host, actors: set<int>) {
    exists steps :: Of(steps, actors) && Run(h, steps) == later
  }

  lemma Stays(h: Host, actors: set<int>)
    ensures Leads(h, h, actors)
  {
    assert Of([], actors) && Run(h, []) == h;
  }

  lemma OneMore(h: Host, now: Host, step: Step, actors: set<int>)
    requires Leads(h, now, actors) && Enabled(now, step) && Actor(step) in actors
    ensures Leads(h, Next(now, step), actors)
  {
    var steps :| Of(steps, actors) && Run(h, steps) == now;
    assert (steps + [step])[..|steps|] == steps;
    assert Of(steps + [step], actors) && Run(h, steps + [step]) == Next(now, step);
  }

  lemma PutTwice(h: Host, p: int, first: Process, second: Process)
    ensures Put(Put(h, p, first), p, second) == Put(h, p, second)
  {}

  lemma {:induction false} RunTwice(h: Host, first: seq<Step>, second: seq<Step>)
    ensures Run(h, first + second) == Run(Run(h, first), second)
  {
    if second == [] {
      assert first + second == first;
    } else {
      var init := second[..|second| - 1];
      RunTwice(h, first, init);
      assert (first + second)[..|first + second| - 1] == first + init;
    }
  }

  lemma Joined(h: Host, mid: Host, later: Host, actors: set<int>)
    requires Leads(h, mid, actors) && Leads(mid, later, actors)
    ensures Leads(h, later, actors)
  {
    var first :| Of(first, actors) && Run(h, first) == mid;
    var second :| Of(second, actors) && Run(mid, second) == later;
    RunTwice(h, first, second);
    assert Of(first + second, actors);
  }

  // ---------- a request gets in ----------

  lemma Asks(h: Host, now: Host, p: int, r: Process, later: Host, r': Process)
    requires Leads(h, Put(now, p, r), {p}) && r.Request?
    requires AskNext(Put(now, p, r), p, r) == Put(Put(later, p, r), p, r')
    ensures Leads(h, Put(later, p, r'), {p})
  {
    OneMore(h, Put(now, p, r), Ask(p), {p});
    PutTwice(later, p, r, r');
  }

  /** The locks are as a request needs them: nobody is exclusive, and whoever finds a marker
      can take the controller lock. */
  predicate Admissible(h: Host, p: int) {
    p !in h.procs && NobodyExclusive(h) && !Dirty(h.marker) && (h.marker.Some? ==> ControllerFree(h))
  }

  lemma OwnLocks(h: Host, p: int, r: Process)
    requires p !in h.procs && r.Request?
    ensures NobodyExclusive(Put(h, p, r)) == NobodyExclusive(h)
    ensures !HoldsController(r) ==> ControllerFree(Put(h, p, r)) == ControllerFree(h)
  {
    var h' := Put(h, p, r);
    assert forall q :: q in h.procs ==> q in h'.procs && h'.procs[q] == h.procs[q];
    assert forall q :: q in h'.procs ==> q == p || q in h.procs;
  }

  /** A clean marker that nobody works under any more is removed on the way. */
  lemma ClearsMarker(h: Host, p: int)
    requires Admissible(h, p) && h.marker.Some?
    ensures Leads(h, Put(h.(marker := None), p, Request(false, TakingAccess)), {p})
  {
    var cleared := h.(marker := None);
    Stays(h, {p});
    OneMore(h, h, Arrive(p), {p});
    OwnLocks(h, p, Request(false, ReadingState));
    Asks(h, h, p, Request(false, ReadingState), h, Request(false, TryingController));
    OwnLocks(h, p, Request(false, TryingController));
    Asks(h, h, p, Request(false, TryingController), h, Request(false, ReReading));
    Asks(h, h, p, Request(false, ReReading), h, Request(false, Clearing));
    Asks(h, h, p, Request(false, Clearing), cleared, Request(false, Dropping));
    Asks(h, cleared, p, Request(false, Dropping), cleared, Request(false, TakingAccess));
  }

  lemma FindsNoMarker(h: Host, p: int)
    requires p !in h.procs && h.marker == None
    ensures Leads(h, Put(h, p, Request(false, TakingAccess)), {p})
  {
    Stays(h, {p});
    OneMore(h, h, Arrive(p), {p});
    Asks(h, h, p, Request(false, ReadingState), h, Request(false, TakingAccess));
  }

  /** A request that arrives while nobody is exclusive, no marker is dirty and the controller lock
      is free to clear a stale marker gets inside by its own steps. It then holds the shared lock,
      the stale marker is gone, and nothing else on the host has changed. */
  lemma RequestIsAdmitted(h: Host, p: int)
    requires p !in h.procs && NobodyExclusive(h) && !Dirty(h.marker) && (h.marker.Some? ==> ControllerFree(h))
    ensures exists later ::
              && Leads(h, later, {p}) && p in later.procs
              && IsInside(later.procs[p]) && HoldsShared(later.procs[p])
              && later == h.(marker := None, procs := h.procs[p := later.procs[p]])
  {
    var clear := h.(marker := None);
    if h.marker.Some? {
      ClearsMarker(h, p);
    } else {
      FindsNoMarker(h, p);
      assert clear == h;
    }
    OwnLocks(clear, p, Request(false, TakingAccess));
    Asks(h, clear, p, Request(false, TakingAccess), clear, Request(true, ReadingState));
    Asks(h, clear, p, Request(true, ReadingState), clear, Request(true, Inside));
  }

  /** The request gets inside by its own steps; at most a marker is taken away. */
  ghost predicate GetsIn(h: Host, p: int) {
    exists later ::
      && Leads(h, later, {p}) && p in later.procs && IsInside(later.procs[p]) && HoldsShared(later.procs[p])
      && (later.marker == None || later.marker == h.marker)
      && later == h.(marker := later.marker, procs := h.procs[p := later.procs[p]])
  }

  /** How far a request still has to go. */
  function Distance(r: Process): nat
    requires r.Request?
  {
    (if r.second then 0 else 7) +
    match r.point
    case ReadingState => 6
    case TryingController => 5
    case ReReading => 4
    case Clearing => 3
    case Dropping => 2
    case TakingAccess => 1
    case Inside => 0
  }

  /** The shared lock is taken between the two passes. */
  predicate Proper(r: Process) {
    r.Request? && (r.point == TakingAccess ==> !r.second) && (r.point == Inside ==> r.second)
  }

  /** The locks are as the request needs them from here on. */
  predicate Unhindered(h: Host, p: int) {
    && p in h.procs && Proper(h.procs[p]) && NobodyExclusive(h) && !Dirty(h.marker)
    && forall q :: q in h.procs && q != p ==> !HoldsController(h.procs[q])
  }

  lemma AsksOn(h: Host, p: int)
    requires Unhindered(h, p) && h.procs[p].point != Inside
    ensures var next := Next(h, Ask(p));
            && Unhindered(next, p) && Distance(next.procs[p]) < Distance(h.procs[p])
            && (next.marker == None || next.marker == h.marker)
            && next == h.(marker := next.marker, procs := h.procs[p := next.procs[p]])
  {}

  /** Wherever a request is on its way in, it gets inside by its own steps once nobody is exclusive,
      no marker is dirty and nobody else has the controller. */
  lemma {:induction false} RequestGetsIn(h: Host, p: int)
    requires Unhindered(h, p)
    ensures GetsIn(h, p)
    decreases Distance(h.procs[p])
  {
    Stays(h, {p});
    if h.procs[p].point == Inside {
      assert h == h.(marker := h.marker, procs := h.procs[p := h.procs[p]]);
    } else {
      AsksOn(h, p);
      var next := Next(h, Ask(p));
      OneMore(h, h, Ask(p), {p});
      RequestGetsIn(next, p);
      var later :| Leads(next, later, {p}) && p in later.procs && IsInside(later.procs[p])
                   && HoldsShared(later.procs[p]) && (later.marker == None || later.marker == next.marker)
                   && later == next.(marker := later.marker, procs := next.procs[p := later.procs[p]]);
      Joined(h, next, later, {p});
    }
  }

  // ---------- a window gets through ----------

  /** Nobody holds any lock, so a window finds both free. */
  predicate Idle(h: Host) {
    forall q :: q in h.procs ==>
      !HoldsController(h.procs[q]) && !HoldsShared(h.procs[q]) && !HoldsExclusive(h.procs[q])
  }

  lemma Goes(h: Host, now: Host, p: int, w: Process, later: Host, w': Process, actors: set<int>)
    requires Leads(h, Put(now, p, w), actors) && p in actors && w.Window? && GoEnabled(Put(now, p, w), w)
    requires GoNext(Put(now, p, w), p, w) == Put(Put(later, p, w), p, w')
    ensures Leads(h, Put(later, p, w'), actors)
  {
    OneMore(h, Put(now, p, w), Go(p), actors);
    PutTwice(later, p, w, w');
  }

  lemma AloneWithLocks(h: Host, p: int, w: Process)
    requires p !in h.procs && Idle(h) && w.Window?
    ensures w.at == TakingController ==> ControllerFree(Put(h, p, w))
    ensures w.at == Waiting ==> GoEnabled(Put(h, p, w), w)
  {
    var h' := Put(h, p, w);
    assert forall q :: q in h'.procs ==> q == p || (q in h.procs && h'.procs[q] == h.procs[q]);
  }

  /** The window's copy of the marker after it has read the old one. */
  function Read(h: Host, job: Job): Marker {
    Marker(job.restore, Dirty(h.marker), if h.marker.Some? then h.marker.value.safety else None)
  }

  function CheckingWindow(h: Host, job: Job): Process {
    Window(job, Checking, Read(h, job), Dirty(h.marker), Snapshot(0, None), false)
  }

  /** On an idle host a window reaches its body, unless a dirty marker asks for a recovery. */
  lemma Enters(h: Host, p: int, job: Job, actors: set<int>)
    requires p !in h.procs && Idle(h) && p in actors && (Dirty(h.marker) ==> job.restore && job.recover)
    ensures Leads(h, Put(h.(marker := Some(Read(h, job))), p, CheckingWindow(h, job)), actors)
  {
    var w := NewWindow(job);
    var marked := h.(marker := Some(Read(h, job)));
    Stays(h, actors);
    OneMore(h, h, Start(p, job), actors);
    AloneWithLocks(h, p, w);
    Goes(h, h, p, w, h, w.(at := Reading), actors);
    var checking := CheckingWindow(h, job);
    var draining := checking.(at := Draining);
    Goes(h, h, p, w.(at := Reading), h, draining, actors);
    Goes(h, h, p, draining, marked, draining.(at := Waiting), actors);
    AloneWithLocks(marked, p, draining.(at := Waiting));
    Goes(h, marked, p, draining.(at := Waiting), marked, draining.(at := Checking), actors);
  }

  lemma Closes(h: Host, now: Host, p: int, w: Process, actors: set<int>)
    requires Leads(h, Put(now, p, w), actors) && p in actors && p !in now.procs && w.Window? && w.at == Closing(true)
    ensures Leads(h, now, actors)
  {
    Goes(h, now, p, w, now, w.(at := Closing(false)), actors);
    OneMore(h, Put(now, p, w.(at := Closing(false))), Go(p), actors);
    assert now.procs[p := w.(at := Closing(false))] - {p} == now.procs;
  }

  /** A clean window takes the marker away and lets go of its locks. */
  lemma Leaves(h: Host, now: Host, p: int, w: Process, actors: set<int>)
    requires Leads(h, Put(now, p, w), actors) && p in actors && p !in now.procs
    requires w.Window? && w.at == Leaving(true) && !w.mem.dirty
    ensures Leads(h, now.(marker := None, clean := Snapshot(now.db, now.media)), actors)
  {
    var left := now.(marker := None, clean := Snapshot(now.db, now.media));
    Goes(h, now, p, w, left, w.(at := Closing(true)), actors);
    Closes(h, left, p, w.(at := Closing(true)), actors);
  }

  /** The client that a waiting window starts, and the window once it waits for it. */
  function ClientFor(w: Process, status: ClientStatus): Process
    requires w.Window?
  {
    Client(if w.at.Saving? then None else Some(w.source.db), status)
  }

  function WaitingFor(w: Process, c: int): Process
    requires w.Window? && (w.at.Saving? || w.at.Importing?)
  {
    if w.at.Saving? then w.(at := Saving(Some(c))) else w.(at := Importing(Some(c), w.at.aside))
  }

  lemma StartsClient(h: Host, now: Host, p: int, w: Process, c: int, actors: set<int>)
    requires Leads(h, Put(now, p, w), actors) && p in actors && p != c && c !in now.procs
    requires w.Window? && (w.at.Saving? || w.at.Importing?) && w.at.client == None
    ensures Leads(h, Put(Put(now, c, ClientFor(w, Running)), p, WaitingFor(w, c)), actors)
  {
    OneMore(h, Put(now, p, w), Spawn(p, c), actors);
    assert Next(Put(now, p, w), Spawn(p, c)).procs ==
           Put(Put(now, c, ClientFor(w, Running)), p, WaitingFor(w, c)).procs;
  }

  /** The client ends, or writes part of the database before it fails. */
  lemma ClientEnds(h: Host, now: Host, p: int, w: Process, c: int, actors: set<int>)
    requires w.Window? && (w.at.Saving? || w.at.Importing?)
    requires Leads(h, Put(Put(now, c, ClientFor(w, Running)), p, WaitingFor(w, c)), actors) && c in actors && p != c
    ensures Leads(h, Put(Put(if w.at.Saving? then now else now.(db := w.source.db), c, ClientFor(w, Done)), p,
                         WaitingFor(w, c)), actors)
  {
    var working := Put(Put(now, c, ClientFor(w, Running)), p, WaitingFor(w, c));
    OneMore(h, working, ClientDone(c), actors);
    assert Next(working, ClientDone(c)).procs == Put(Put(now, c, ClientFor(w, Done)), p, WaitingFor(w, c)).procs;
  }

  lemma ClientStopsEarly(h: Host, now: Host, p: int, w: Process, c: int, db: int, actors: set<int>)
    requires w.Window? && w.at.Importing?
    requires Leads(h, Put(Put(now, c, ClientFor(w, Running)), p, WaitingFor(w, c)), actors) && c in actors && p != c
    ensures Leads(h, Put(Put(now.(db := db), c, ClientFor(w, Failed)), p, WaitingFor(w, c)), actors)
  {
    var working := Put(Put(now, c, ClientFor(w, Running)), p, WaitingFor(w, c));
    OneMore(h, working, ClientWrites(c, db), actors);
    OneMore(h, working.(db := db), ClientFails(c), actors);
    assert Next(working.(db := db), ClientFails(c)).procs ==
             Put(Put(now, c, ClientFor(w, Failed)), p, WaitingFor(w, c)).procs;
  }

  /** The dump of the present content becomes a backup. */
  lemma Dumps(h: Host, now: Host, p: int, w: Process, c: int, id: int, actors: set<int>)
    requires Leads(h, Put(now, p, w), actors) && {p, c} <= actors && p != c && c !in now.procs && id !in now.backups
    requires w.Window? && w.at == Saving(None)
    ensures Leads(h, Put(now.(procs := now.procs[c := Client(None, Done)],
                              backups := now.backups[id := Snapshot(now.db, now.media)]), p,
                         w.(at := if w.job.restore then Validated(Some(id)) else Leaving(true))), actors)
  {
    StartsClient(h, now, p, w, c, actors);
    ClientEnds(h, now, p, w, c, actors);
    var dumped := Put(now, c, Client(None, Done));
    OneMore(h, Put(dumped, p, WaitingFor(w, c)), Saved(p, id), actors);
    var done := w.(at := if w.job.restore then Validated(Some(id)) else Leaving(true));
    PutTwice(dumped, p, WaitingFor(w, c), done);
  }

  /** On an idle host without a dirty marker a backup is taken of exactly the present content,
      which stays the accepted one. */
  lemma BackupIsTaken(h: Host, p: int, c: int, id: int)
    requires Idle(h) && !Dirty(h.marker) && p !in h.procs && c !in h.procs && p != c && id !in h.backups
    ensures Leads(h, h.(marker := None, clean := Snapshot(h.db, h.media),
                        backups := h.backups[id := Snapshot(h.db, h.media)],
                        procs := h.procs[c := Client(None, Done)]), {p, c})
  {
    var job := Job(false, false, 0);
    var w, marked := CheckingWindow(h, job), h.(marker := Some(Read(h, job)));
    Enters(h, p, job, {p, c});
    Goes(h, marked, p, w, marked, w.(at := Saving(None)), {p, c});
    Dumps(h, marked, p, w.(at := Saving(None)), c, id, {p, c});
    var dumped := marked.(procs := marked.procs[c := Client(None, Done)],
                          backups := marked.backups[id := Snapshot(marked.db, marked.media)]);
    Leaves(h, dumped, p, w.(at := Leaving(true)), {p, c});
  }

  // ---------- a restore and a recovery get through ----------

  /** The media tree after the backup's one, if it has one, took the place of the present one. */
  function MediaWith(present: Option<int>, source: Snapshot): Option<int> {
    if source.media.Some? then source.media else present
  }

  /** What is moved aside meanwhile. */
  function Aside(present: Option<int>, source: Snapshot): Option<int> {
    if source.media.Some? then present else None
  }

  /** The copy that names its safety backup and is dirty. */
  function DirtyCopy(w: Process): Marker
    requires w.Window? && w.at.Validated?
  {
    Marker(w.mem.restore, true, if w.at.made.Some? then w.at.made else w.mem.safety)
  }

  /** A validated backup's media are moved in under a dirty marker, and the import can start. */
  lemma MovesMedia(h: Host, now: Host, p: int, w: Process, actors: set<int>)
    requires Leads(h, Put(now, p, w), actors) && p in actors && w.Window? && w.at.Validated? && w.source.media.Some?
    ensures Leads(h, Put(now.(marker := Some(DirtyCopy(w)), media := w.source.media), p,
                         w.(at := MarkingDatabase(now.media), mem := DirtyCopy(w))), actors)
  {
    var named := WithSafety(w);
    var staged := now.(marker := Some(named));
    var marked := now.(marker := Some(DirtyCopy(w)));
    var dirty := w.(at := MovingOut, mem := DirtyCopy(w));
    Goes(h, now, p, w, staged, w.(at := MarkingMedia, mem := named), actors);
    Goes(h, staged, p, w.(at := MarkingMedia, mem := named), marked, dirty, actors);
    var out := marked.(media := None);
    Goes(h, marked, p, dirty, out, dirty.(at := MovingIn(now.media)), actors);
    Goes(h, out, p, dirty.(at := MovingIn(now.media)), marked.(media := w.source.media),
         dirty.(at := MarkingDatabase(now.media)), actors);
  }

  lemma StartsImport(h: Host, now: Host, p: int, w: Process, actors: set<int>)
    requires Leads(h, Put(now, p, w), actors) && p in actors && w.Window? && w.at.Validated?
    ensures Leads(h, Put(now.(marker := Some(DirtyCopy(w)), media := MediaWith(now.media, w.source)), p,
                         w.(at := Importing(None, Aside(now.media, w.source)), mem := DirtyCopy(w))), actors)
  {
    var marked := now.(marker := Some(DirtyCopy(w)), media := MediaWith(now.media, w.source));
    var importing := w.(at := Importing(None, Aside(now.media, w.source)), mem := DirtyCopy(w));
    if w.source.media.Some? {
      MovesMedia(h, now, p, w, actors);
      Goes(h, marked, p, importing.(at := MarkingDatabase(now.media)), marked, importing, actors);
    } else {
      var named := WithSafety(w);
      var staged := now.(marker := Some(named));
      Goes(h, now, p, w, staged, w.(at := MarkingDatabase(None), mem := named), actors);
      Goes(h, staged, p, w.(at := MarkingDatabase(None), mem := named), marked, importing, actors);
    }
  }

  /** The import runs to its end and the window accepts the new content. */
  lemma Completes(h: Host, now: Host, p: int, w: Process, c: int, actors: set<int>)
    requires Leads(h, Put(now, p, w), actors) && {p, c} <= actors && p != c && p !in now.procs && c !in now.procs
    requires w.Window? && w.at.Importing? && w.at.client == None
    ensures Leads(h, now.(db := w.source.db, marker := None, clean := Snapshot(w.source.db, now.media),
                          procs := now.procs[c := Client(Some(w.source.db), Done)]), actors)
  {
    var loaded := now.(db := w.source.db, procs := now.procs[c := Client(Some(w.source.db), Done)]);
    Loads(h, now, p, w, c, actors);
    var checked := w.(at := Verifying(w.at.aside));
    var kept := loaded.(marker := Some(w.mem));
    Goes(h, loaded, p, checked, kept, checked.(at := Auditing), actors);
    var left := w.(at := Leaving(true), mem := w.mem.(dirty := false), complete := true);
    Goes(h, kept, p, checked.(at := Auditing), kept, left, actors);
    Leaves(h, kept, p, left, actors);
  }

  lemma Loads(h: Host, now: Host, p: int, w: Process, c: int, actors: set<int>)
    requires Leads(h, Put(now, p, w), actors) && {p, c} <= actors && p != c && p !in now.procs && c !in now.procs
    requires w.Window? && w.at.Importing? && w.at.client == None
    ensures Leads(h, Put(now.(db := w.source.db, procs := now.procs[c := Client(Some(w.source.db), Done)]), p,
                         w.(at := Verifying(w.at.aside))), actors)
  {
    StartsClient(h, now, p, w, c, actors);
    ClientEnds(h, now, p, w, c, actors);
    var loaded := now.(db := w.source.db, procs := now.procs[c := Client(Some(w.source.db), Done)]);
    Goes(h, loaded, p, WaitingFor(w, c), loaded, w.(at := Verifying(w.at.aside)), actors);
  }

  /** The window has made its safety backup and holds the content of its target. */
  lemma Validates(h: Host, p: int, c: int, id: int, target: int, actors: set<int>)
    requires Idle(h) && !Dirty(h.marker) && p !in h.procs && c !in h.procs && p != c && {p, c} <= actors
    requires id !in h.backups && target in h.backups
    ensures var job := Job(true, false, target);
            Leads(h, Put(h.(marker := Some(Read(h, job)), backups := h.backups[id := Snapshot(h.db, h.media)],
                            procs := h.procs[c := Client(None, Done)]), p,
                         Window(job, Validated(Some(id)), Read(h, job), false, h.backups[target], false)), actors)
  {
    var job := Job(true, false, target);
    var w, marked := CheckingWindow(h, job), h.(marker := Some(Read(h, job)));
    Enters(h, p, job, actors);
    var saving := w.(at := Saving(None), source := h.backups[target]);
    Goes(h, marked, p, w, marked, saving, actors);
    Dumps(h, marked, p, saving, c, id, actors);
  }

  /** The content that putting a backup back amounts to. */
  function PutBack(present: Option<int>, source: Snapshot): Snapshot {
    Snapshot(source.db, MediaWith(present, source))
  }

  /** On an idle host without a dirty marker any backup can be restored: its database, and its
      media if it has some, replace the present content and are accepted. The content before is
      kept in a new backup. */
  lemma RestoreCompletes(h: Host, p: int, c: int, d: int, id: int, target: int)
    requires Idle(h) && !Dirty(h.marker) && p !in h.procs && c !in h.procs && d !in h.procs
    requires p != c && p != d && c != d && id !in h.backups && target in h.backups
    ensures exists later ::
              && Leads(h, later, {p, c, d}) && later.marker == None
              && Snapshot(later.db, later.media) == PutBack(h.media, h.backups[target]) == later.clean
              && later.backups == h.backups[id := Snapshot(h.db, h.media)]
              && d in later.procs && later.procs == h.procs[c := Client(None, Done)][d := later.procs[d]]
  {
    var job, actors := Job(true, false, target), {p, c, d};
    var source := h.backups[target];
    var w := Window(job, Validated(Some(id)), Read(h, job), false, source, false);
    var saved := h.(marker := Some(Read(h, job)), backups := h.backups[id := Snapshot(h.db, h.media)],
                    procs := h.procs[c := Client(None, Done)]);
    Validates(h, p, c, id, target, actors);
    StartsImport(h, saved, p, w, actors);
    var marked := saved.(marker := Some(DirtyCopy(w)), media := MediaWith(h.media, source));
    Completes(h, marked, p, w.(at := Importing(None, Aside(h.media, source)), mem := DirtyCopy(w)), d, actors);
  }

  /** On an idle host with a dirty marker a recovery from the backup it names completes, and that
      backup's database, and its media if it has some, are the accepted content. */
  lemma RecoveryCompletes(h: Host, p: int, d: int)
    requires Idle(h) && Dirty(h.marker) && p !in h.procs && d !in h.procs && p != d
    requires h.marker.value.safety.Some? && h.marker.value.safety.value in h.backups
    ensures exists later ::
              && Leads(h, later, {p, d}) && later.marker == None
              && Snapshot(later.db, later.media) == PutBack(h.media, h.backups[h.marker.value.safety.value])
              && later.clean == Snapshot(later.db, later.media) && later.backups == h.backups
              && d in later.procs && later.procs == h.procs[d := later.procs[d]]
  {
    var safety := h.marker.value.safety.value;
    var job, actors := Job(true, true, safety), {p, d};
    var source := h.backups[safety];
    var checking, marked := CheckingWindow(h, job), h.(marker := Some(Read(h, job)));
    Enters(h, p, job, actors);
    var w := checking.(at := Validated(None), source := source);
    Goes(h, marked, p, checking, marked, w, actors);
    StartsImport(h, marked, p, w, actors);
    var moved := marked.(marker := Some(DirtyCopy(w)), media := MediaWith(h.media, source));
    Completes(h, moved, p, w.(at := Importing(None, Aside(h.media, source)), mem := DirtyCopy(w)), d, actors);
  }

  // ---------- a restore that fails ----------

  /** The import fails half way, having written whatever it wrote; the media that were moved aside
      come back, and the dirty marker with its safety backup stays. */
  lemma Undoes(h: Host, now: Host, p: int, w: Process, c: int, db: int, actors: set<int>)
    requires Leads(h, Put(now, p, w), actors) && {p, c} <= actors && p != c && p !in now.procs && c !in now.procs
    requires w.Window? && w.at.Importing? && w.at.client == None && w.mem.dirty
    ensures Leads(h, now.(db := db, media := if w.at.aside.Some? then w.at.aside else now.media,
                          procs := now.procs[c := Client(Some(w.source.db), Failed)]), actors)
  {
    var aside := w.at.aside;
    var failed := now.(db := db, procs := now.procs[c := Client(Some(w.source.db), Failed)]);
    ImportFails(h, now, p, w, c, db, actors);
    var undone := failed.(media := if aside.Some? then aside else now.media);
    Goes(h, failed, p, w.(at := Undoing(aside)), undone, w.(at := Leaving(true)), actors);
    Goes(h, undone, p, w.(at := Leaving(true)), undone, w.(at := Closing(true)), actors);
    Closes(h, undone, p, w.(at := Closing(true)), actors);
  }

  lemma ImportFails(h: Host, now: Host, p: int, w: Process, c: int, db: int, actors: set<int>)
    requires Leads(h, Put(now, p, w), actors) && {p, c} <= actors && p != c && p !in now.procs && c !in now.procs
    requires w.Window? && w.at.Importing? && w.at.client == None
    ensures Leads(h, Put(now.(db := db, procs := now.procs[c := Client(Some(w.source.db), Failed)]), p,
                         w.(at := Undoing(w.at.aside))), actors)
  {
    StartsClient(h, now, p, w, c, actors);
    ClientStopsEarly(h, now, p, w, c, db, actors);
    var failed := now.(db := db, procs := now.procs[c := Client(Some(w.source.db), Failed)]);
    OneMore(h, Put(failed, p, WaitingFor(w, c)), Miss(p), actors);
    PutTwice(failed, p, WaitingFor(w, c), w.(at := Undoing(w.at.aside)));
  }

  /** A restore whose import fails after any partial write leaves the gate shut with the old
      media tree in place, if there was one. */
  lemma FailedRestoreUndoesMedia(h: Host, p: int, c: int, d: int, id: int, target: int, db: int)
    requires Idle(h) && !Dirty(h.marker) && p !in h.procs && c !in h.procs && d !in h.procs
    requires p != c && p != d && c != d && id !in h.backups && target in h.backups
    ensures exists later ::
              && Leads(h, later, {p, c, d}) && later.marker == Some(Marker(true, true, Some(id)))
              && later.db == db && later.clean == h.clean
              && later.media == (if h.media.Some? then h.media else h.backups[target].media)
              && later.backups == h.backups[id := Snapshot(h.db, h.media)]
              && d in later.procs && later.procs == h.procs[c := Client(None, Done)][d := later.procs[d]]
              && later.procs[d].Client? && later.procs[d].status == Failed
  {
    var job, actors := Job(true, false, target), {p, c, d};
    var source := h.backups[target];
    var w := Window(job, Validated(Some(id)), Read(h, job), false, source, false);
    var saved := h.(marker := Some(Read(h, job)), backups := h.backups[id := Snapshot(h.db, h.media)],
                    procs := h.procs[c := Client(None, Done)]);
    Validates(h, p, c, id, target, actors);
    StartsImport(h, saved, p, w, actors);
    var marked := saved.(marker := Some(DirtyCopy(w)), media := MediaWith(h.media, source));
    Undoes(h, marked, p, w.(at := Importing(None, Aside(h.media, source)), mem := DirtyCopy(w)), d, db, actors);
  }

  /** The window holds the old media tree aside, or knows that there is none. */
  predicate KeepsAside(at: WindowAt, aside: Option<int>) {
    match at
    case MovingIn(kept) => kept == aside
    case Importing(_, kept) => kept == aside
    case Verifying(kept) => kept == aside
    case _ => false
  }

  /** Wherever the replacement fails, before the new media are in, during the import or at the final
      check, the window goes on to put the old tree back; if there was none it removes nothing. */
  lemma FailurePutsMediaBack(h: Host, p: int, aside: Option<int>)
    requires p in h.procs && h.procs[p].Window? && KeepsAside(h.procs[p].at, aside) && h.procs[p].mem.dirty
    requires ClientStopped(h, ClientOf(h.procs[p].at))
    ensures var after := Run(h, [Miss(p), Go(p)]);
            && after.media == (if aside.Some? || h.procs[p].at.MovingIn? then aside else h.media)
            && after == h.(media := after.media, procs := after.procs)
  {
    assert Run(h, []) == h && [Miss(p), Go(p)][..1] == [Miss(p)] && [Miss(p)][..0] == [];
    assert Run(h, [Miss(p)]) == Next(h, Miss(p));
  }

  /** Failures touch the media tree at two points only: they put it back before the new one is in,
      and a failed attempt to put it back leaves none. Database and backups they never touch. */
  lemma FailuresTouchMedia(h: Host, p: int, late: bool)
    requires p in h.procs && h.procs[p].Window? && ClientStopped(h, ClientOf(h.procs[p].at))
    ensures var after := Next(h, if late then MissLate(p) else Miss(p));
            && after.db == h.db && after.backups == h.backups && after.clean == h.clean
            && after.media == match h.procs[p].at
                              case MovingIn(aside) => if late then h.media else aside
                              case Undoing(aside) => if !late && aside.Some? then None else h.media
                              case _ => h.media
  {}

  lemma LeavesBehind(h: Host, p: int)
    requires p in h.procs && h.procs[p].Window? && h.procs[p].at.Leaving? && !h.procs[p].mem.dirty
    ensures Leads(h, h.(marker := None, clean := Snapshot(h.db, h.media), procs := h.procs - {p}), {p})
  {
    var rest := h.(procs := h.procs - {p});
    var left := rest.(marker := None, clean := Snapshot(h.db, h.media));
    var w := h.procs[p];
    assert h == Put(rest, p, w);
    Stays(h, {p});
    Goes(h, rest, p, w, left, w.(at := Closing(w.at.held)), {p});
    if w.at.held {
      Closes(h, left, p, w.(at := Closing(true)), {p});
    } else {
      OneMore(h, Put(left, p, w.(at := Closing(false))), Go(p), {p});
      assert left.procs[p := w.(at := Closing(false))] - {p} == left.procs;
    }
  }

  /** The window holds the controller and has replaced nothing yet. */
  predicate Preparing(at: WindowAt) {
    at == Draining || at == Waiting || at == Checking || at.Saving? || at.Validated?
  }

  /** A window that fails before it replaces anything, whichever way the step fails, goes on to open
      the gate again: the marker is gone and the content is as it was. */
  lemma FailureOpensGate(h: Host, p: int, late: bool)
    requires p in h.procs && h.procs[p].Window? && Preparing(h.procs[p].at) && !h.procs[p].mem.dirty
    requires ClientStopped(h, ClientOf(h.procs[p].at))
    ensures Leads(h, h.(marker := None, clean := Snapshot(h.db, h.media), procs := h.procs - {p}), {p})
    ensures Leads(Next(h, if late then MissLate(p) else Miss(p)),
                  h.(marker := None, clean := Snapshot(h.db, h.media), procs := h.procs - {p}), {p})
  {
    var step := if late then MissLate(p) else Miss(p);
    var failed := Next(h, step);
    assert failed.procs - {p} == h.procs - {p};
    LeavesBehind(failed, p);
    Stays(h, {p});
    OneMore(h, h, step, {p});
    Joined(h, failed, h.(marker := None, clean := Snapshot(h.db, h.media), procs := h.procs - {p}), {p});
  }

  lemma FewerActors(h: Host, later: Host, few: set<int>, actors: set<int>)
    requires Leads(h, later, few) && few <= actors
    ensures Leads(h, later, actors)
  {
    var steps :| Of(steps, few) && Run(h, steps) == later;
    assert Of(steps, actors);
  }

  lemma IdleAfter(h: Host, later: Host, c: int, d: int)
    requires Idle(h) && d in later.procs && later.procs == h.procs[c := Client(None, Done)][d := later.procs[d]]
    requires later.procs[d].Client? && later.procs[d].status == Failed
    ensures Idle(later)
  {
    forall q | q in later.procs
      ensures !HoldsController(later.procs[q]) && !HoldsShared(later.procs[q]) && !HoldsExclusive(later.procs[q])
    {
      assert q == c || q == d || (q in h.procs && later.procs[q] == h.procs[q]);
    }
  }

  /** A failed restore followed by a recovery gives back the database and, if there was one, the
      media tree of before, and opens the gate again. */
  lemma FailedRestoreIsRecovered(h: Host, p: int, c: int, d: int, e: int, id: int, target: int, db: int)
    requires Idle(h) && !Dirty(h.marker) && p !in h.procs && c !in h.procs && d !in h.procs && e !in h.procs
    requires p != c && p != d && c != d && e !in {p, c, d} && id !in h.backups && target in h.backups
    ensures exists later ::
              && Leads(h, later, {p, c, d, e}) && later.marker == None && later.db == h.db
              && later.media == (if h.media.Some? then h.media else h.backups[target].media)
              && later.clean == Snapshot(later.db, later.media)
  {
    FailedRestoreUndoesMedia(h, p, c, d, id, target, db);
    var failed :| Leads(h, failed, {p, c, d}) && failed.marker == Some(Marker(true, true, Some(id)))
                  && failed.media == (if h.media.Some? then h.media else h.backups[target].media)
                  && failed.backups == h.backups[id := Snapshot(h.db, h.media)]
                  && d in failed.procs && failed.procs == h.procs[c := Client(None, Done)][d := failed.procs[d]]
                  && failed.procs[d].Client? && failed.procs[d].status == Failed;
    IdleAfter(h, failed, c, d);
    RecoveryCompletes(failed, p, e);
    var later :| Leads(failed, later, {p, e}) && later.marker == None
                 && Snapshot(later.db, later.media) == PutBack(failed.media, failed.backups[id])
                 && later.clean == Snapshot(later.db, later.media);
    FewerActors(h, failed, {p, c, d}, {p, c, d, e});
    FewerActors(failed, later, {p, e}, {p, c, d, e});
    Joined(h, failed, later, {p, c, d, e});
  }
}
