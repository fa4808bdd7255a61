/** The order that the times of a fault and its repairs must keep.

    Models backend/assets/fault_timeline.py:6-29: the errors are collected by field name
    before anything is refused.
 */
module FaultTimeline {
  import opened RackRanges
  import opened Records

  datatype Field = OccurredAt | ReportedAt | StartedAt | FinishedAt

  function TimeOf(round: Round, field: Field): Option<int> {
    if field == StartedAt then round.startedAt else round.finishedAt
  }

  method ValidateFaultTimes(occurredAt: int, reportedAt: Option<int>, repair: Option<Round>)
    returns (errors: set<Field>)
    ensures ReportedAt in errors <==> !NotBefore(reportedAt, occurredAt)
    ensures OccurredAt in errors <==>
            repair.Some?
            && !(NotBefore(repair.value.startedAt, occurredAt) && NotBefore(repair.value.finishedAt, occurredAt))
    ensures errors <= {ReportedAt, OccurredAt}
  {
    errors := {};
    if reportedAt.Some? && reportedAt.value < occurredAt {
      errors := errors + {ReportedAt};
    }
    if repair.Some? {
      var fields, i := [StartedAt, FinishedAt], 0;
      while i < |fields|
        invariant 0 <= i <= |fields|
        invariant ReportedAt in errors <==> !NotBefore(reportedAt, occurredAt)
        invariant OccurredAt in errors <==>
                    exists j :: 0 <= j < i && !NotBefore(TimeOf(repair.value, fields[j]), occurredAt)
        invariant errors <= {ReportedAt, OccurredAt}
      {
        var time := TimeOf(repair.value, fields[i]);
        if time.Some? && time.value < occurredAt {
          errors := errors + {OccurredAt};
        }
        i := i + 1;
      }
      assert fields[0] == StartedAt && fields[1] == FinishedAt;
    }
  }

  method ValidateRepairTimes(occurredAt: int, startedAt: Option<int>, finishedAt: Option<int>)
    returns (errors: set<Field>)
    ensures StartedAt in errors <==>
              !NotBefore(startedAt, occurredAt) || (startedAt.Some? && !NotBefore(finishedAt, startedAt.value))
    ensures FinishedAt in errors <==>
              !NotBefore(finishedAt, occurredAt) || (startedAt.Some? && !NotBefore(finishedAt, startedAt.value))
    ensures errors <= {StartedAt, FinishedAt}
  {
    errors := {};
    if startedAt.Some? && startedAt.value < occurredAt {
      errors := errors + {StartedAt};
    }
    if finishedAt.Some? && finishedAt.value < occurredAt {
      errors := errors + {FinishedAt};
    }
    if startedAt.Some? && finishedAt.Some? && startedAt.value > finishedAt.value {
      errors := errors + {StartedAt, FinishedAt};
    }
  }
}
