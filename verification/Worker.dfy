/**
 The worker's side of a result: what it reports for an execution, and how it resends that
 report until it is answered. The network may lose requests and answers, and the
 coordinator goes on with other transactions in between.
 */
module Worker {
  import opened Basics
  import opened Queue
  import QueueHistory
  import QueueInvariant
  import QueueRecords

  // -------------------------------------------------------------- reporting

  const MAX_CANDIDATE_BYTES := 128 * 1024

  datatype Execution = Text(text: string) | Error(severity: FailureClass)

  /** strings.TrimSpace leaves nothing */
  predicate Empty(text: string) {
    forall i | 0 <= i < |text| :: WhiteSpace(text[i])
  }

  function Limit(kind: Kind): nat {
    if kind.Generate? then MAX_CANDIDATE_BYTES else MAX_TASK_RESULT_BYTES
  }

  /** The result that Once builds for its job. */
  function Report(kind: Kind, execution: Execution): Payload {
    match execution
    case Error(severity) => Failure(Some(severity))
    case Text(text) =>
      if Empty(text) || Utf8Bytes(text) > Limit(kind) then Failure(Some(Permanent))
      else if kind.Generate? then Finished(Untyped(text)) else Finished(Typed(kind.task, text))
  }

  /** What a worker reports: the text, if it has any and it fits; a permanent failure for an empty or an
      oversized one; and the class of the failure that it met. */
  lemma ReportRule(kind: Kind, execution: Execution)
    ensures match execution
            case Error(severity) => Report(kind, execution) == Failure(Some(severity))
            case Text(text) =>
              var usable := (exists i | 0 <= i < |text| :: !WhiteSpace(text[i]))
                            && Utf8Bytes(text) <= if kind.Generate? then 131072 else 8192;
              if !usable then Report(kind, execution) == Failure(Some(Permanent))
              else match kind
                   case Generate => Report(kind, execution) == Finished(Untyped(text))
                   case Respond(task) => Report(kind, execution) == Finished(Typed(task, text))
  {
  }

  /** The worker and the coordinator do not agree on white space: a report is refused as invalid
      exactly when it answers a typed task with nothing but white space and ASCII separators, and
      has a separator in it. */
  lemma ReportRefused(kind: Kind, execution: Execution)
    ensures var p := Report(kind, execution);
            (p.Finished? && !ValidOutput(kind, p.output))
            <==> kind.Respond? && execution.Text? && Utf8Bytes(execution.text) <= MAX_TASK_RESULT_BYTES
                 && Blank(execution.text) && !Empty(execution.text)
  {
  }

  /** A worker that answers a question with the file separator alone reports it as finished, and the
      coordinator calls that invalid, whatever the lease. */
  lemma SeparatorRefused(db: Db, a: nat, token: nat, now: int)
    requires Linked(db) && Holds(db, a, token) && db.jobs[db.leases[a].job].kind == Respond(TaskType.Finding)
    ensures var p := Report(Respond(TaskType.Finding), Text([0x1C as char]));
            p.Finished? && Deliver(db, a, token, p, now) == (db, Invalid)
  {
    var text := [0x1C as char];
    assert Stripped(text[0]) && !WhiteSpace(text[0]);
    assert Blank(text) && !Empty(text);
    assert Utf8Bytes(text[..0]) == 0 && Utf8Bytes(text) == 1;
  }

  // ---------------------------------------------------------------- resending

  /** One attempt: what the coordinator did meanwhile, whether the request arrives and when, whether
      its answer does, and whether the worker is told to stop afterwards. */
  datatype Trip = Trip(meanwhile: seq<Event>, arrives: bool, now: int, answered: bool, cancelled: bool)

  datatype Outcome = Acknowledged | Declined(reply: Reply) | Cancelled | GaveUp

  /** Event k delivered this report, and it was accepted. */
  ghost predicate AcceptedAt(history: seq<Event>, k: nat, a: nat, token: nat, p: Payload) {
    && k < |history| && history[k].EDeliver? && history[k] == EDeliver(a, token, p, history[k].now)
    && Deliver(After(history[..k]), a, token, p, history[k].now).1.Accepted?
  }

  /** Was a copy of this report ever accepted? */
  ghost predicate EverAccepted(history: seq<Event>, a: nat, token: nat, p: Payload) {
    exists k: nat :: AcceptedAt(history, k, a, token, p)
  }

  /** The report is on record for a lease that has ended. */
  ghost predicate OnRecord(db: Db, a: nat, token: nat, p: Payload)
    requires Linked(db)
  {
    && a < |db.leases| && db.leases[a].result == Some(Canonical(p)) && db.leases[a].token == token
    && !db.leases[a].status.Active? && QueueRecords.Deliverable(db, a, p)
  }

  lemma StoredAfter(db: Db, a: nat, token: nat, p: Payload, now: int)
    requires QueueInvariant.Inv(db) && Deliver(db, a, token, p, now).1.Accepted?
    ensures OnRecord(Deliver(db, a, token, p, now).0, a, token, p)
  {
    QueueRecords.AcceptedIsRecorded(db, a, token, p, now);
  }

  lemma RecordStep(db: Db, e: Event, a: nat, token: nat, p: Payload)
    requires QueueInvariant.Inv(db) && OnRecord(db, a, token, p)
    ensures OnRecord(Step(db, e), a, token, p)
  {
    var d := Step(db, e);
    QueueRecords.StepGrows(db, e);
    assert QueueRecords.LeaseGrows(db.leases[a], d.leases[a]);
    assert QueueRecords.JobGrows(db.jobs[db.leases[a].job], d.jobs[db.leases[a].job]);
  }

  lemma {:induction false} RecordLater(history: seq<Event>, n: nat, a: nat, token: nat, p: Payload)
    requires n <= |history| && OnRecord(After(history[..n]), a, token, p)
    ensures OnRecord(After(history), a, token, p)
  {
    if n == |history| {
      assert history[..n] == history;
    } else {
      var front := history[..|history| - 1];
      assert front[..n] == history[..n];
      RecordLater(front, n, a, token, p);
      QueueHistory.AlwaysInv(front);
      RecordStep(After(front), history[|history| - 1], a, token, p);
    }
  }

  lemma RecordedAt(history: seq<Event>, k: nat, a: nat, token: nat, p: Payload)
    requires AcceptedAt(history, k, a, token, p)
    ensures OnRecord(After(history[..k + 1]), a, token, p)
  {
    QueueHistory.AlwaysInv(history[..k]);
    StoredAfter(After(history[..k]), a, token, p, history[k].now);
    QueueRecords.DeliveredAfter(history[..k], a, token, p, history[k].now);
    TakeNext(history, k);
  }

  lemma RecordAnswers(db: Db, a: nat, token: nat, p: Payload, now: int)
    requires Linked(db) && OnRecord(db, a, token, p)
    ensures Deliver(db, a, token, p, now).1.Accepted?
  {
  }

  lemma AcceptedAgain(history: seq<Event>, k: nat, a: nat, token: nat, p: Payload, now: int)
    requires AcceptedAt(history, k, a, token, p)
    ensures Deliver(After(history), a, token, p, now).1.Accepted?
  {
    RecordedAt(history, k, a, token, p);
    RecordLater(history, k + 1, a, token, p);
    RecordAnswers(After(history), a, token, p, now);
  }

  lemma AcceptedBefore(history: seq<Event>, e: Event, k: nat, a: nat, token: nat, p: Payload)
    requires k < |history| && AcceptedAt(history + [e], k, a, token, p)
    ensures AcceptedAt(history, k, a, token, p)
  {
    assert (history + [e])[..k] == history[..k];
  }

  lemma DeclinedNeverAccepted(history: seq<Event>, a: nat, token: nat, p: Payload, now: int)
    requires !Deliver(After(history), a, token, p, now).1.Accepted?
    ensures !EverAccepted(history + [EDeliver(a, token, p, now)], a, token, p)
  {
    var e := EDeliver(a, token, p, now);
    forall k: nat ensures !AcceptedAt(history + [e], k, a, token, p) {
      if AcceptedAt(history + [e], k, a, token, p) && k < |history| {
        AcceptedBefore(history, e, k, a, token, p);
        AcceptedAgain(history, k, a, token, p, now);
      }
      AppendParts(history, e);
    }
  }

  lemma AcceptedIsStored(history: seq<Event>, a: nat, token: nat, p: Payload, now: int)
    requires Deliver(After(history), a, token, p, now).1.Accepted?
    ensures var d := After(history + [EDeliver(a, token, p, now)]);
            a < |d.leases| && d.leases[a].result == Some(Canonical(p))
  {
    QueueHistory.AlwaysInv(history);
    QueueRecords.AcceptedIsRecorded(After(history), a, token, p, now);
    QueueRecords.DeliveredAfter(history, a, token, p, now);
  }

  /** submitResult: up to three attempts with the same payload. An acknowledgement means the report
      is recorded; a refusal means that no copy of it ever was; and however many copies arrive, the
      assignment changes the tables at most once. */
  method SubmitResult(before: seq<Event>, a: nat, token: nat, p: Payload, trips: seq<Trip>)
    returns (outcome: Outcome, history: seq<Event>, sends: nat)
    requires |trips| == 3
    ensures before <= history && sends <= 3
    ensures outcome.Acknowledged? ==> a < |After(history).leases| && After(history).leases[a].result == Some(Canonical(p))
    ensures outcome.Declined? ==> !outcome.reply.Accepted? && !EverAccepted(history, a, token, p)
    ensures outcome.GaveUp? ==> sends == 3
    ensures QueueRecords.Effects(history, a) <= 1
  {
    history, sends := before, 0;
    for attempt := 0 to 3
      invariant before <= history && sends == attempt
    {
      var trip := trips[attempt];
      history, sends := history + trip.meanwhile, sends + 1;
      if trip.arrives {
        var reply := Deliver(After(history), a, token, p, trip.now).1;
        if trip.answered {
          if reply.Accepted? {
            AcceptedIsStored(history, a, token, p, trip.now);
            outcome := Acknowledged;
          } else {
            DeclinedNeverAccepted(history, a, token, p, trip.now);
            outcome := Declined(reply);
          }
          history := history + [EDeliver(a, token, p, trip.now)];
          QueueRecords.EffectAtMostOnce(history, a);
          return;
        }
        history := history + [EDeliver(a, token, p, trip.now)];
      }
      if trip.cancelled {
        QueueRecords.EffectAtMostOnce(history, a);
        return Outcome.Cancelled, history, sends;
      }
    }
    QueueRecords.EffectAtMostOnce(history, a);
    outcome := GaveUp;
  }
}
