/** What becomes of a digest message: when a run gets through to the server, what it records, and
    which results are final.

    The other side of `Digest`, whose laws bound what may happen
    (backend/assets/notification_delivery.py:98-135).
 */
module DigestRuns {
  import opened RackRanges
  import opened Digest

  /** The message has not been tried yet or failed safely, less than three times so far and the last
      time at least an hour ago. */
  predicate Due(row: Delivery, now: int) {
    && (row.status == Pending || row.status == Failed) && row.attempts < 3
    && (row.attemptedAt == None || row.attemptedAt.value + 3600 <= now)
  }

  /** The row of a message whose call ended this way: sent, indeterminate, or failed for another try. */
  predicate RecordedAs(reply: Reply, status: Status) {
    match reply
    case Delivered => status == Sent
    case Raised(true, false) => status == Unknown
    case Raised(_, _) => status == Failed
  }

  /** Only the counts and the row of this message may differ. */
  ghost predicate OnlyMessage(w: World, after: World, key: Key) {
    forall k :: k != key ==>
      && RowOf(after.rows, k) == RowOf(w.rows, k)
      && Count(after.contacts, k, 0) == Count(w.contacts, k, 0)
      && Count(after.accepted, k, 0) == Count(w.accepted, k, 0)
  }

  lemma ExecuteNext(w: World, steps: seq<Step>, step: Step)
    requires Enabled(Execute(w, steps), step)
    ensures Execute(w, steps + [step]) == After(Execute(w, steps), step)
  {
    assert (steps + [step])[..|steps|] == steps;
  }

  function Starting(p: int, key: Key): seq<Step> {
    [Begin(p, key.day, [key.recipient])] + [Go(p)]
  }

  /** The steps of one run for one recipient. */
  function Steps(p: int, key: Key, reply: Reply, accepts: bool): seq<Step> {
    Starting(p, key) + [Go(p)] + [Contact(p, reply, accepts)] + [Go(p)]
  }

  /** An undisturbed run leaves a message that is not due alone and records the call on one that is. */
  lemma RowAfterRunIs(row: Delivery, now: int, reply: Reply)
    ensures var after := RowAfterRun(row, now, reply);
            && (!Due(row, now) ==> after == row)
            && (Due(row, now) ==>
                 after.attempts == row.attempts + 1 && after.attemptedAt == Some(now)
                 && RecordedAs(reply, after.status))
  {}

  /** The run has its row and is about to claim it. */
  function Started(w: World, p: int, key: Key): World {
    w.(rows := w.rows[key := RowOf(w.rows, key)], runs := w.runs[p := Run(key.day, [key.recipient], 0, Claiming)])
  }

  lemma Starts(w: World, p: int, key: Key)
    requires p !in w.runs
    ensures Execute(w, Starting(p, key)) == Started(w, p, key)
  {
    var begun := WithRun(w, p, Run(key.day, [key.recipient], 0, Next));
    assert Execute(w, []) == w && [] + [Begin(p, key.day, [key.recipient])] == [Begin(p, key.day, [key.recipient])];
    ExecuteNext(w, [], Begin(p, key.day, [key.recipient]));
    ExecuteNext(w, [Begin(p, key.day, [key.recipient])], Go(p));
    assert key in w.rows ==> w.rows[key := w.rows[key]] == w.rows;
    assert After(begun, Go(p)).runs == Started(w, p, key).runs;
  }

  function ClaimOf(w: World, key: Key): Delivery {
    Delivery(Sending, RowOf(w.rows, key).attempts + 1, Some(w.now))
  }

  /** The run holds the message. */
  function Holding(w: World, p: int, key: Key): World {
    w.(rows := w.rows[key := ClaimOf(w, key)], claims := w.claims[key := Count(w.claims, key, []) + [w.now]],
       runs := w.runs[p := Run(key.day, [key.recipient], 0, Claimed(ClaimOf(w, key)))])
  }

  lemma ClaimStep(w: World, p: int, key: Key)
    requires Due(RowOf(w.rows, key), w.now)
    ensures Enabled(Started(w, p, key), Go(p)) && After(Started(w, p, key), Go(p)) == Holding(w, p, key)
  {
    ClaimableIsDue(RowOf(w.rows, key), w.now);
    var started := Started(w, p, key);
    assert started.rows[key := ClaimOf(w, key)] == w.rows[key := ClaimOf(w, key)];
    assert started.runs[p := Run(key.day, [key.recipient], 0, Claimed(ClaimOf(w, key)))] == Holding(w, p, key).runs;
  }

  lemma Claims(w: World, p: int, key: Key)
    requires p !in w.runs && Due(RowOf(w.rows, key), w.now)
    ensures Execute(w, Starting(p, key) + [Go(p)]) == Holding(w, p, key)
  {
    Starts(w, p, key);
    ClaimStep(w, p, key);
    ExecuteNext(w, Starting(p, key), Go(p));
  }

  /** The call has ended and is not recorded yet. */
  function Called(w: World, p: int, key: Key, reply: Reply, accepts: bool): World {
    Holding(w, p, key).(
      contacts := w.contacts[key := Count(w.contacts, key, 0) + 1],
      accepted := if accepts then w.accepted[key := Count(w.accepted, key, 0) + 1] else w.accepted,
      runs := w.runs[p := Run(key.day, [key.recipient], 0, Replied(ClaimOf(w, key), reply))])
  }

  lemma ContactStep(w: World, p: int, key: Key, reply: Reply, accepts: bool)
    requires Possible(reply, accepts)
    ensures var step := Contact(p, reply, accepts);
            Enabled(Holding(w, p, key), step)
            && After(Holding(w, p, key), step) == Called(w, p, key, reply, accepts)
  {
    var held := Holding(w, p, key);
    assert held.runs[p := Run(key.day, [key.recipient], 0, Replied(ClaimOf(w, key), reply))] ==
           Called(w, p, key, reply, accepts).runs;
  }

  /** The message after the call and its record. */
  function Ended(w: World, p: int, key: Key, reply: Reply, accepts: bool): World {
    Holding(w, p, key).(
      rows := w.rows[key := ClaimOf(w, key).(status := StatusAfter(reply))],
      contacts := w.contacts[key := Count(w.contacts, key, 0) + 1],
      accepted := if accepts then w.accepted[key := Count(w.accepted, key, 0) + 1] else w.accepted,
      runs := w.runs[p := Run(key.day, [key.recipient], 1, Next)])
  }

  lemma RecordStep(w: World, p: int, key: Key, reply: Reply, accepts: bool)
    ensures Enabled(Called(w, p, key, reply, accepts), Go(p))
            && After(Called(w, p, key, reply, accepts), Go(p)) == Ended(w, p, key, reply, accepts)
  {
    var called, ended := Called(w, p, key, reply, accepts), Ended(w, p, key, reply, accepts);
    assert called.rows[key := ClaimOf(w, key).(status := StatusAfter(reply))] == ended.rows;
    assert called.runs[p := Run(key.day, [key.recipient], 1, Next)] == ended.runs;
  }

  lemma Ends(w: World, p: int, key: Key, reply: Reply, accepts: bool)
    requires p !in w.runs && Due(RowOf(w.rows, key), w.now) && Possible(reply, accepts)
    ensures Execute(w, Steps(p, key, reply, accepts)) == Ended(w, p, key, reply, accepts)
  {
    var held := Starting(p, key) + [Go(p)];
    Claims(w, p, key);
    ContactStep(w, p, key, reply, accepts);
    ExecuteNext(w, held, Contact(p, reply, accepts));
    RecordStep(w, p, key, reply, accepts);
    ExecuteNext(w, held + [Contact(p, reply, accepts)], Go(p));
  }

  /** A run on a message that is due contacts the server once, whatever the outcome, and records it:
      a delivery as sent, an uncertain failure as indeterminate, any other as failed. */
  lemma DueIsContacted(w: World, p: int, key: Key, reply: Reply, accepts: bool)
    requires p !in w.runs && Due(RowOf(w.rows, key), w.now) && Possible(reply, accepts)
    ensures var after := Execute(w, Steps(p, key, reply, accepts));
            && RowOf(after.rows, key).attempts == RowOf(w.rows, key).attempts + 1
            && RowOf(after.rows, key).attemptedAt == Some(w.now)
            && RecordedAs(reply, RowOf(after.rows, key).status)
            && Count(after.contacts, key, 0) == Count(w.contacts, key, 0) + 1
            && Count(after.accepted, key, 0) == Count(w.accepted, key, 0) + (if accepts then 1 else 0)
            && OnlyMessage(w, after, key)
  {
    Ends(w, p, key, reply, accepts);
  }

  /** The claim is made exactly on messages that are due. */
  lemma ClaimableIsDue(row: Delivery, now: int)
    ensures Claimable(row, now) <==> Due(row, now)
  {}

  /** A safe failure is tried again an hour later, up to the third time, and can then be delivered. */
  lemma SafeFailureIsRetried(w: World, p: int, q: int, key: Key, reply: Reply, later: int)
    requires p !in w.runs && q !in w.runs && p != q && Due(RowOf(w.rows, key), w.now)
    requires reply.Raised? && (!reply.deliveryFailed || reply.retrySafe)
    requires RowOf(w.rows, key).attempts < 2 && later >= w.now + 3600
    ensures var failed := After(Execute(w, Steps(p, key, reply, false)), Clock(later));
            var after := Execute(failed, Steps(q, key, Delivered, true));
            && RowOf(failed.rows, key).status == Failed
            && RowOf(after.rows, key).status == Sent
            && Count(after.accepted, key, 0) == Count(w.accepted, key, 0) + 1
  {
    DueIsContacted(w, p, key, reply, false);
    var failed := After(Execute(w, Steps(p, key, reply, false)), Clock(later));
    Ends(w, p, key, reply, false);
    DueIsContacted(failed, q, key, Delivered, true);
  }

  /** A message that is sent or indeterminate is settled. */
  predicate Settled(w: World, key: Key) {
    key in w.rows && (w.rows[key].status == Sent || w.rows[key].status == Unknown)
  }

  lemma StepLeavesSettled(w: World, step: Step, key: Key)
    requires Inv(w) && Enabled(w, step) && Settled(w, key)
    ensures var after := After(w, step);
            key in after.rows && after.rows[key] == w.rows[key]
            && Count(after.contacts, key, 0) == Count(w.contacts, key, 0)
  {
    match step
    case Go(p) => if w.runs[p].phase.Replied? { assert HolderInv(w, w.runs[p]); }
    case Contact(p, _, _) => assert HolderInv(w, w.runs[p]);
    case _ =>
  }

  /** Whatever runs there are, a settled message is never contacted again and its row never changes. */
  lemma {:induction false} SettledForever(w: World, steps: seq<Step>, key: Key)
    requires Inv(w) && Settled(w, key)
    ensures Inv(Execute(w, steps)) && key in Execute(w, steps).rows && Execute(w, steps).rows[key] == w.rows[key]
    ensures Count(Execute(w, steps).contacts, key, 0) == Count(w.contacts, key, 0)
  {
    if steps != [] {
      var init, last := steps[..|steps| - 1], steps[|steps| - 1];
      SettledForever(w, init, key);
      if Enabled(Execute(w, init), last) {
        StepLeavesSettled(Execute(w, init), last, key);
        StepKeepsInv(Execute(w, init), last);
      }
    }
  }
}
