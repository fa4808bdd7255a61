/** Claim-before-send delivery of the daily digest.

    Models the loop of `send_digest` (backend/assets/notification_delivery.py:98-135) with
    the failure classes of smtp.py:102-113. Several runs may work at once and each may die
    anywhere. Rows are not deleted; a failure that is marked safe to retry, or that happens
    before delivery, is taken to mean that the server did not accept the message.
 */
module Digest {
  import opened RackRanges

  const HOUR := 3600

  datatype Status = Pending | Sending | Sent | Unknown | Failed

  /** The row of one message: the claims so far are counted, and the last one is timed. */
  datatype Delivery = Delivery(status: Status, attempts: nat, attemptedAt: Option<int>)

  datatype Key = Key(day: int, recipient: int)

  /** What `send_smtp_message` does: it returns, or raises with a code and a retry mark. */
  datatype Reply = Delivered | Raised(deliveryFailed: bool, retrySafe: bool)

  datatype Phase = Next | Claiming | Claimed(row: Delivery) | Replied(row: Delivery, reply: Reply)

  datatype Run = Run(day: int, recipients: seq<int>, done: nat, phase: Phase)

  /** `claims` is the history of claim times; `contacts` counts the SMTP conversations of a message
      and `accepted` its acceptances. */
  datatype World = World(rows: map<Key, Delivery>, runs: map<int, Run>, now: int,
                         claims: map<Key, seq<int>>, contacts: map<Key, nat>, accepted: map<Key, nat>)

  datatype Step =
    | Begin(p: int, day: int, recipients: seq<int>)
    | Go(p: int)
    | Contact(p: int, reply: Reply, accepts: bool)
    | Crash(p: int)
    | Clock(now: int)

  // ---------- one row ----------

  /** The row may be claimed now (notification_delivery.py:111-115). */
  predicate Claimable(row: Delivery, now: int) {
    && row.status != Sent && row.status != Sending && row.status != Unknown
    && row.attempts < 3 && (row.attemptedAt.Some? ==> now - row.attemptedAt.value >= HOUR)
  }

  function ClaimedRow(row: Delivery, now: int): Delivery {
    Delivery(Sending, row.attempts + 1, Some(now))
  }

  /** The recorded status: a failed delivery that is not safe to retry stays indeterminate. */
  function StatusAfter(reply: Reply): Status {
    match reply
    case Delivered => Sent
    case Raised(deliveryFailed, retrySafe) => if deliveryFailed && !retrySafe then Unknown else Failed
  }

  /** What the server may have done when the call ended this way. */
  predicate Possible(reply: Reply, accepts: bool) {
    match reply
    case Delivered => accepts
    case Raised(deliveryFailed, retrySafe) => (deliveryFailed && !retrySafe) || !accepts
  }

  const NEW_ROW := Delivery(Pending, 0, None)

  // ---------- the loop of one run ----------

  function Count<T>(counts: map<Key, T>, key: Key, zero: T): T {
    if key in counts then counts[key] else zero
  }

  class Outbox {
    var rows: map<Key, Delivery>

    constructor ()
      ensures rows == map[]
    {
      rows := map[];
    }
  }

  function RowOf(rows: map<Key, Delivery>, key: Key): Delivery {
    if key in rows then rows[key] else NEW_ROW
  }

  /** The row of a recipient after an undisturbed run. */
  function RowAfterRun(row: Delivery, now: int, reply: Reply): Delivery {
    if Claimable(row, now) then ClaimedRow(row, now).(status := StatusAfter(reply)) else row
  }

  /** One turn of the loop: create the row, claim it, send, record. */
  method SendOne(box: Outbox, key: Key, now: int, reply: Reply) returns (sent: bool, failed: bool)
    modifies box
    ensures RowOf(box.rows, key) == RowAfterRun(RowOf(old(box.rows), key), now, reply)
    ensures forall k :: k != key ==> RowOf(box.rows, k) == RowOf(old(box.rows), k)
    ensures sent <==> Claimable(RowOf(old(box.rows), key), now) && reply == Delivered
    ensures failed <==> Claimable(RowOf(old(box.rows), key), now) && reply != Delivered
  {
    sent, failed := false, false;
    if key !in box.rows { box.rows := box.rows[key := NEW_ROW]; }
    var row := box.rows[key];
    if row.status == Sent || row.status == Sending || row.status == Unknown { return; }
    if row.attempts >= 3 || (row.attemptedAt.Some? && now - row.attemptedAt.value < HOUR) { return; }
    row := Delivery(Sending, row.attempts + 1, Some(now));
    box.rows := box.rows[key := row];
    match reply {
      case Raised(deliveryFailed, retrySafe) =>
        row := row.(status := if deliveryFailed && !retrySafe then Unknown else Failed);
        failed := true;
      case Delivered =>
        row := row.(status := Sent);
        sent := true;
    }
    box.rows := box.rows[key := row];
  }

  /** `send_digest` for one day when no other run is at work; `replies` tells how each call ends. */
  method SendDigest(box: Outbox, day: int, recipients: seq<int>, now: int, replies: map<int, Reply>)
    returns (sent: nat, failed: nat)
    requires forall i, j :: 0 <= i < j < |recipients| ==> recipients[i] != recipients[j]
    requires forall i :: 0 <= i < |recipients| ==> recipients[i] in replies
    modifies box
    ensures forall i :: 0 <= i < |recipients| ==>
              RowOf(box.rows, Key(day, recipients[i])) ==
                RowAfterRun(RowOf(old(box.rows), Key(day, recipients[i])), now, replies[recipients[i]])
    ensures forall key: Key ::
              !(key.day == day && key.recipient in recipients) ==> RowOf(box.rows, key) == RowOf(old(box.rows), key)
    ensures sent == |Answered(old(box.rows), day, recipients, now, replies, true)|
    ensures failed == |Answered(old(box.rows), day, recipients, now, replies, false)|
  {
    sent, failed := 0, 0;
    var i := 0;
    while i < |recipients|
      invariant 0 <= i <= |recipients|
      invariant forall k :: 0 <= k < i ==>
        RowOf(box.rows, Key(day, recipients[k])) ==
          RowAfterRun(RowOf(old(box.rows), Key(day, recipients[k])), now, replies[recipients[k]])
      invariant forall key: Key ::
                  !(key.day == day && key.recipient in recipients[..i]) ==>
                    RowOf(box.rows, key) == RowOf(old(box.rows), key)
      invariant sent == |Answered(old(box.rows), day, recipients[..i], now, replies, true)|
      invariant failed == |Answered(old(box.rows), day, recipients[..i], now, replies, false)|
    {
      assert recipients[..i + 1] == recipients[..i] + [recipients[i]];
      OneMoreAnswer(old(box.rows), day, recipients[..i], recipients[i], now, replies, true);
      OneMoreAnswer(old(box.rows), day, recipients[..i], recipients[i], now, replies, false);
      var delivered, raised := SendOne(box, Key(day, recipients[i]), now, replies[recipients[i]]);
      if delivered { sent := sent + 1; }
      if raised { failed := failed + 1; }
      i := i + 1;
    }
    assert recipients[..i] == recipients;
  }

  /** The recipient can be contacted now and the call ends with, or without, delivery. */
  predicate Answers(rows: map<Key, Delivery>, day: int, recipient: int, now: int, replies: map<int, Reply>,
                    delivered: bool)
    requires recipient in replies
  {
    Claimable(RowOf(rows, Key(day, recipient)), now) && (replies[recipient] == Delivered) == delivered
  }

  /** All recipients who answer so. */
  function Answered(rows: map<Key, Delivery>, day: int, recipients: seq<int>, now: int, replies: map<int, Reply>,
                    delivered: bool): set<int>
    requires forall i :: 0 <= i < |recipients| ==> recipients[i] in replies
  {
    set r | r in recipients && Answers(rows, day, r, now, replies, delivered)
  }

  lemma OneMoreAnswer(rows: map<Key, Delivery>, day: int, recipients: seq<int>, last: int, now: int,
                      replies: map<int, Reply>, delivered: bool)
    requires last in replies && last !in recipients
    requires forall i :: 0 <= i < |recipients| ==> recipients[i] in replies
    ensures |Answered(rows, day, recipients + [last], now, replies, delivered)| ==
            |Answered(rows, day, recipients, now, replies, delivered)|
            + if Answers(rows, day, last, now, replies, delivered) then 1 else 0
  {
    var longer := recipients + [last];
    assert longer[|recipients|] == last;
    var before := Answered(rows, day, recipients, now, replies, delivered);
    var after := Answered(rows, day, longer, now, replies, delivered);
    assert forall r :: r in longer <==> r in recipients || r == last;
    assert last !in before;
    if Answers(rows, day, last, now, replies, delivered) {
      assert after == before + {last};
    } else {
      assert after == before;
    }
  }

  // ---------- concurrent runs ----------

  function KeyOf(run: Run): Key
    requires run.done < |run.recipients|
  {
    Key(run.day, run.recipients[run.done])
  }

  predicate Enabled(w: World, step: Step) {
    match step
    case Begin(p, _, _) => p !in w.runs
    case Go(p) => p in w.runs && w.runs[p].done < |w.runs[p].recipients| && !w.runs[p].phase.Claimed?
    case Contact(p, reply, accepts) => p in w.runs && w.runs[p].done < |w.runs[p].recipients|
                                       && w.runs[p].phase.Claimed? && Possible(reply, accepts)
    case Crash(p) => p in w.runs
    case Clock(_) => true
  }

  function WithRun(w: World, p: int, run: Run): World {
    w.(runs := w.runs[p := run])
  }

  /** Create the row, claim it in one transaction, or record the reply. */
  function GoNext(w: World, p: int, run: Run): World
    requires run.done < |run.recipients| && !run.phase.Claimed?
  {
    var key := KeyOf(run);
    match run.phase
    case Next => WithRun(if key in w.rows then w else w.(rows := w.rows[key := NEW_ROW]), p, run.(phase := Claiming))
    case Claiming =>
      if key in w.rows && Claimable(w.rows[key], w.now) then
        var row := ClaimedRow(w.rows[key], w.now);
        WithRun(w.(rows := w.rows[key := row], claims := w.claims[key := Count(w.claims, key, []) + [w.now]]), p,
                run.(phase := Claimed(row)))
      else WithRun(w, p, run.(done := run.done + 1, phase := Next))
    case Replied(row, reply) =>
      WithRun(w.(rows := w.rows[key := row.(status := StatusAfter(reply))]), p,
              run.(done := run.done + 1, phase := Next))
  }

  function ContactNext(w: World, p: int, run: Run, reply: Reply, accepts: bool): World
    requires run.done < |run.recipients| && run.phase.Claimed?
  {
    var key := KeyOf(run);
    WithRun(w.(contacts := w.contacts[key := Count(w.contacts, key, 0) + 1],
               accepted := if accepts then w.accepted[key := Count(w.accepted, key, 0) + 1] else w.accepted),
            p, run.(phase := Replied(run.phase.row, reply)))
  }

  function After(w: World, step: Step): World
    requires Enabled(w, step)
  {
    match step
    case Begin(p, day, recipients) => WithRun(w, p, Run(day, recipients, 0, Next))
    case Go(p) => GoNext(w, p, w.runs[p])
    case Contact(p, reply, accepts) => ContactNext(w, p, w.runs[p], reply, accepts)
    case Crash(p) => w.(runs := w.runs - {p})
    case Clock(now) => w.(now := now)
  }

  function Execute(w: World, steps: seq<Step>): World {
    if steps == [] then w
    else
      var before := Execute(w, steps[..|steps| - 1]);
      if Enabled(before, steps[|steps| - 1]) then After(before, steps[|steps| - 1]) else before
  }

  const START := World(map[], map[], 0, map[], map[], map[])

  // ---------- invariants ----------

  /** The run has claimed the message and not yet recorded how it went. */
  predicate Holds(run: Run, key: Key) {
    run.done < |run.recipients| && KeyOf(run) == key && (run.phase.Claimed? || run.phase.Replied?)
  }

  ghost predicate OneHolder(w: World) {
    forall p, q, key :: p in w.runs && q in w.runs && Holds(w.runs[p], key) && Holds(w.runs[q], key) ==> p == q
  }

  /** A holder's copy is the stored row, and nothing is accepted before it is recorded. */
  ghost predicate HolderInv(w: World, run: Run) {
    run.done < |run.recipients| && (run.phase.Claimed? || run.phase.Replied?) ==>
      var key := KeyOf(run);
      && key in w.rows && w.rows[key] == run.phase.row && run.phase.row.status == Sending
      && (run.phase.Claimed? ==> Count(w.accepted, key, 0) == 0 && Count(w.contacts, key, 0) < run.phase.row.attempts)
      && (run.phase.Replied? && Count(w.accepted, key, 0) > 0 ==>
            StatusAfter(run.phase.reply) == Sent || StatusAfter(run.phase.reply) == Unknown)
  }

  ghost predicate Spaced(times: seq<int>) {
    forall i :: 0 <= i < |times| - 1 ==> times[i + 1] - times[i] >= HOUR
  }

  ghost predicate KeyInv(w: World, key: Key) {
    var row := RowOf(w.rows, key);
    var times := Count(w.claims, key, []);
    && Count(w.accepted, key, 0) <= 1
    && (Count(w.accepted, key, 0) == 1 ==> row.status == Sending || row.status == Sent || row.status == Unknown)
    && Count(w.contacts, key, 0) <= row.attempts <= 3
    && |times| == row.attempts && Spaced(times)
    && (row.attempts > 0 ==> row.attemptedAt == Some(times[|times| - 1]))
  }

  ghost predicate Inv(w: World) {
    && OneHolder(w)
    && (forall p :: p in w.runs ==> HolderInv(w, w.runs[p]))
    && (forall key :: KeyInv(w, key))
  }

  /** Only one message changes, and no other run holds it. */
  lemma OthersKeep(w: World, w': World, p: int, key: Key)
    requires Inv(w) && p in w'.runs && w'.runs == w.runs[p := w'.runs[p]]
    requires forall k :: k != key ==> RowOf(w'.rows, k) == RowOf(w.rows, k) && (k in w.rows ==> k in w'.rows)
    requires forall k ::
               k != key ==>
                 Count(w'.claims, k, []) == Count(w.claims, k, [])
                 && Count(w'.contacts, k, 0) == Count(w.contacts, k, 0)
    requires forall k :: k != key ==> Count(w'.accepted, k, 0) == Count(w.accepted, k, 0)
    requires forall q :: q in w.runs && q != p ==> !Holds(w.runs[q], key)
    requires forall k :: Holds(w'.runs[p], k) ==> k == key
    requires HolderInv(w', w'.runs[p]) && KeyInv(w', key)
    ensures Inv(w')
  {
    forall k ensures KeyInv(w', k) { assert KeyInv(w, k); }
    forall q | q in w'.runs ensures HolderInv(w', w'.runs[q]) {
      if q != p {
        assert HolderInv(w, w.runs[q]);
        var run := w.runs[q];
        if run.done < |run.recipients| && (run.phase.Claimed? || run.phase.Replied?) {
          assert Holds(run, KeyOf(run));
          assert KeyOf(run) != key && RowOf(w'.rows, KeyOf(run)) == RowOf(w.rows, KeyOf(run));
          assert Count(w'.contacts, KeyOf(run), 0) == Count(w.contacts, KeyOf(run), 0);
          assert Count(w'.accepted, KeyOf(run), 0) == Count(w.accepted, KeyOf(run), 0);
        }
      }
    }
  }

  /** A run that claims nothing changes no message. */
  lemma IdleStep(w: World, w': World, p: int)
    requires Inv(w) && p in w'.runs && w'.runs == w.runs[p := w'.runs[p]]
             && (w'.runs[p].phase == Next || w'.runs[p].phase == Claiming)
    requires w' == w.(runs := w'.runs, rows := w'.rows)
    requires forall k :: RowOf(w'.rows, k) == RowOf(w.rows, k) && (k in w.rows ==> k in w'.rows)
    ensures Inv(w')
  {
    forall k ensures KeyInv(w', k) { assert KeyInv(w, k) && RowOf(w'.rows, k) == RowOf(w.rows, k); }
    forall q | q in w'.runs && q != p ensures HolderInv(w', w'.runs[q]) {
      assert HolderInv(w, w.runs[q]);
      var run := w.runs[q];
      assert run.done < |run.recipients| ==> RowOf(w'.rows, KeyOf(run)) == RowOf(w.rows, KeyOf(run));
    }
  }

  /** A row that may be claimed is held by nobody. */
  lemma ClaimableIsFree(w: World, key: Key)
    requires Inv(w) && key in w.rows && w.rows[key].status != Sending
    ensures forall q :: q in w.runs ==> !Holds(w.runs[q], key)
  {
    forall q | q in w.runs ensures !Holds(w.runs[q], key) { assert HolderInv(w, w.runs[q]); }
  }

  lemma CreateKeepsInv(w: World, p: int)
    requires Inv(w) && Enabled(w, Go(p)) && w.runs[p].phase == Next
    ensures Inv(After(w, Go(p)))
  {
    IdleStep(w, After(w, Go(p)), p);
  }

  lemma ClaimKeepsInv(w: World, p: int)
    requires Inv(w) && Enabled(w, Go(p)) && w.runs[p].phase == Claiming
    ensures Inv(After(w, Go(p)))
  {
    var w', key := After(w, Go(p)), KeyOf(w.runs[p]);
    assert KeyInv(w, key);
    if key in w.rows && Claimable(w.rows[key], w.now) {
      ClaimableIsFree(w, key);
      OthersKeep(w, w', p, key);
    } else {
      IdleStep(w, w', p);
    }
  }

  lemma HolderAlone(w: World, p: int)
    requires Inv(w) && p in w.runs && w.runs[p].done < |w.runs[p].recipients|
             && (w.runs[p].phase.Claimed? || w.runs[p].phase.Replied?)
    ensures forall q :: q in w.runs && q != p ==> !Holds(w.runs[q], KeyOf(w.runs[p]))
  {
    assert Holds(w.runs[p], KeyOf(w.runs[p]));
  }

  lemma RecordKeepsInv(w: World, p: int)
    requires Inv(w) && Enabled(w, Go(p)) && w.runs[p].phase.Replied?
    ensures Inv(After(w, Go(p)))
  {
    var key := KeyOf(w.runs[p]);
    assert KeyInv(w, key) && HolderInv(w, w.runs[p]);
    HolderAlone(w, p);
    OthersKeep(w, After(w, Go(p)), p, key);
  }

  lemma ContactKeepsInv(w: World, p: int, reply: Reply, accepts: bool)
    requires Inv(w) && Enabled(w, Contact(p, reply, accepts))
    ensures Inv(After(w, Contact(p, reply, accepts)))
  {
    var key := KeyOf(w.runs[p]);
    assert KeyInv(w, key) && HolderInv(w, w.runs[p]);
    HolderAlone(w, p);
    OthersKeep(w, After(w, Contact(p, reply, accepts)), p, key);
  }

  lemma StepKeepsInv(w: World, step: Step)
    requires Inv(w) && Enabled(w, step)
    ensures Inv(After(w, step))
  {
    match step
    case Begin(p, day, recipients) => IdleStep(w, After(w, step), p);
    case Go(p) =>
      if w.runs[p].phase == Next {
        CreateKeepsInv(w, p);
      } else if w.runs[p].phase == Claiming {
        ClaimKeepsInv(w, p);
      } else {
        RecordKeepsInv(w, p);
      }
    case Contact(p, reply, accepts) => ContactKeepsInv(w, p, reply, accepts);
    case Crash(p) => QuietStep(w, w.(runs := w.runs - {p}));
    case Clock(now) => QuietStep(w, w.(now := now));
  }

  lemma QuietStep(w: World, w': World)
    requires Inv(w) && w' == w.(runs := w'.runs, now := w'.now)
    requires forall q :: q in w'.runs ==> q in w.runs && w'.runs[q] == w.runs[q]
    ensures Inv(w')
  {
    forall k ensures KeyInv(w', k) { assert KeyInv(w, k); }
    forall q | q in w'.runs ensures HolderInv(w', w'.runs[q]) { assert HolderInv(w, w.runs[q]); }
  }

  lemma {:induction false} ExecuteKeepsInv(steps: seq<Step>)
    ensures Inv(Execute(START, steps))
  {
    if steps != [] {
      ExecuteKeepsInv(steps[..|steps| - 1]);
      var before, last := Execute(START, steps[..|steps| - 1]), steps[|steps| - 1];
      if Enabled(before, last) { StepKeepsInv(before, last); }
    }
  }

  // ---------- the guarantees ----------

  /** A recipient's message of a day is accepted at most once. */
  lemma {:induction false} AcceptedAtMostOnce(steps: seq<Step>, key: Key)
    ensures Count(Execute(START, steps).accepted, key, 0) <= 1
  {
    ExecuteKeepsInv(steps);
    assert KeyInv(Execute(START, steps), key);
  }

  /** It is attempted at most three times, and two claims are at least an hour apart. */
  lemma {:induction false} AttemptedAtMostThrice(steps: seq<Step>, key: Key)
    ensures Count(Execute(START, steps).contacts, key, 0) <= 3
    ensures var times := Count(Execute(START, steps).claims, key, []); |times| <= 3 && Spaced(times)
  {
    ExecuteKeepsInv(steps);
    assert KeyInv(Execute(START, steps), key);
  }

  /** Once accepted, a message is never contacted again, whatever the runs do. */
  lemma {:induction false} NoContactAfterAcceptance(steps: seq<Step>, step: Step, key: Key)
    requires Count(Execute(START, steps).accepted, key, 0) == 1 && Enabled(Execute(START, steps), step)
    ensures Count(After(Execute(START, steps), step).contacts, key, 0) == Count(Execute(START, steps).contacts, key, 0)
  {
    ExecuteKeepsInv(steps);
    var w := Execute(START, steps);
    if step.Contact? { assert HolderInv(w, w.runs[step.p]); }
  }
}
