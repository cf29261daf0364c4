/**
  From max-delivery advisories to reconciled investigations and deleted
  messages (worker/adapters/nats/max_delivery_advisories.py).  The advisory
  callback runs at any await, workers settle and ack at any await, and any call
  to the broker or the database may fail.
*/
module MaxDelivery {
  import opened Prelude
  import opened Rows
  import opened Reconciliation

  /** A stored message: its investigation, or a payload that does not validate. */
  datatype Message = WellFormed(investigation: InvestigationId) | Malformed

  datatype Notice = Notice(investigation: InvestigationId, sequence: nat)

  datatype Failure = BrokerUnavailable | DatabaseUnavailable

  /** `sorted(pending)`. */
  method Sorted(s: set<nat>) returns (r: seq<nat>)
    ensures forall q :: q in r <==> q in s
    ensures forall i, j :: 0 <= i < j < |r| ==> r[i] < r[j]
  {
    r := [];
    var rest := s;
    while rest != {}
      invariant rest <= s
      invariant forall i :: 0 <= i < |r| ==> r[i] in s
      invariant forall q :: q in s ==> q in rest || q in r
      invariant forall i, j :: 0 <= i < j < |r| ==> r[i] < r[j]
      invariant forall i, q :: 0 <= i < |r| && q in rest ==> r[i] < q
      decreases rest
    {
      SmallestExists(rest);
      var m :| Smallest(m, rest);
      rest := rest - {m};
      r := r + [m];
    }
  }

  /** What the database may do meanwhile: settled investigations stay settled. */
  predicate TableEvolves(before: map<InvestigationId, Row>, after: map<InvestigationId, Row>, settled: set<InvestigationId>) {
    && (forall id :: id in settled && Gone(before, id) ==> Gone(after, id))
    && (forall id :: id in after ==> RowOk(after[id]))
  }

  /** The investigations whose outcome allows the cleanup. */
  function Concluded(results: seq<MaxDeliveryResult>): (ids: set<InvestigationId>)
    ensures forall id :: id in ids <==> exists result :: result in results && result.outcome in CLEANUP && result.id == id
  {
    set result | result in results && result.outcome in CLEANUP :: result.id
  }

  lemma ConcludedAreGone(table: map<InvestigationId, Row>, results: seq<MaxDeliveryResult>)
    requires forall i :: 0 <= i < |results| && results[i].outcome in CLEANUP ==> Gone(table, results[i].id)
    ensures forall id :: id in Concluded(results) ==> Gone(table, id)
  {
    forall id | id in Concluded(results)
      ensures Gone(table, id)
    {
      var result :| result in results && result.outcome in CLEANUP && result.id == id;
      var i :| 0 <= i < |results| && results[i] == result;
    }
  }

  class MaxDeliveryCoordinator {
    const pass: ReconcilePass
    var sequences: seq<nat>           // the callback's queue
    var pending: set<nat>
    var stream: map<nat, Message>     // what JetStream holds
    // History, which no statement of the source reads:
    var stored: map<nat, Message>         // everything it ever held; a sequence is never reused
    var captured: set<nat>                // every sequence an advisory named
    var deleted: set<nat>                 // every sequence deleted here
    var concluded: set<InvestigationId>   // every investigation with a committed cleanup outcome
    var undeleted: set<nat>               // every sequence whose deletion failed in the last pass
    var reading: map<InvestigationId, Row>  // the rows as the last pass locked them,
    var readAt: Time                      // and the database clock then

    /** Each captured sequence whose message is still in the stream is queued or pending. */
    ghost predicate Conserved()
      reads this
    {
      forall q :: q in captured && q in stream ==> q in sequences || q in pending
    }

    /** A well-formed message was deleted only after a committed cleanup outcome, and stays settled. */
    ghost predicate DeletionsOk()
      reads this, pass.repository
    {
      && (forall q :: q in deleted ==> q in stored && q !in stream)
      && (forall q :: q in deleted && stored[q].WellFormed? ==> stored[q].investigation in concluded)
      && (forall id :: id in concluded ==> Gone(pass.repository.table, id))
    }

    ghost predicate Valid()
      reads this, pass.repository
    {
      && pass.repository.Valid()
      && Conserved()
      && DeletionsOk()
      && (forall q :: q in stream ==> q in stored && stored[q] == stream[q])
      && (forall q :: q in sequences || q in pending ==> q in captured)
    }

    constructor (pass: ReconcilePass)
      requires pass.repository.Valid()
      ensures this.pass == pass && Valid() && captured == {} && concluded == {}
    {
      this.pass := pass;
      reading, readAt := map[], 0.0;
      sequences, pending, stream := [], {}, map[];
      stored, captured, deleted, concluded, undeleted := map[], {}, {}, {}, {};
    }

    /** `_capture`: anything but a positive sequence is ignored. */
    method Capture(sequence: Option<int>)
      requires Valid()
      modifies this`sequences, this`captured
      ensures Valid()
      ensures if sequence.Some? && sequence.value > 0
              then sequences == old(sequences) + [sequence.value] && captured == old(captured) + {sequence.value}
              else sequences == old(sequences) && captured == old(captured)
    {
      if sequence.Some? && sequence.value > 0 {
        var q: nat := sequence.value;
        sequences := sequences + [q];
        captured := captured + {q};
      }
    }

    /** What was stored or captured and is not in the stream never comes back. */
    twostate predicate StreamEvolves()
      reads this
    {
      && (forall q :: q in old(stored) ==> q in stored && stored[q] == old(stored)[q])
      && (forall q :: q in stream && (q in old(stored) || q in old(captured)) ==> q in old(stream))
      && old(captured) <= captured
    }

    /** On a calm day only this pass changes anything. */
    twostate predicate Undisturbed()
      reads this, pass.repository
    {
      pass.calm ==>
        && stored == old(stored) && captured == old(captured) && undeleted == old(undeleted)
        && pass.repository.table == old(pass.repository.table) && pass.repository.now == old(pass.repository.now)
    }

    /** An await: advisories arrive, messages are stored and acked, workers commit. */
    method Await()
      requires Valid()
      modifies this`sequences, this`captured, this`stream, this`stored, pass.repository
      ensures Valid() && StreamEvolves() && Undisturbed()
      ensures pass.calm ==> stream == old(stream) && sequences == old(sequences)
    {
      if pass.calm {
        return;
      }
      var arrivals: nat := *;
      while arrivals > 0
        invariant Valid() && stored == old(stored) && stream == old(stream) && old(captured) <= captured
        modifies this`sequences, this`captured
      {
        var advisory: Option<int> := *;
        Capture(advisory);
        arrivals := arrivals - 1;
      }
      var acked: set<nat> := *;
      stream := stream - acked;
      var sequence: nat, message: Message := *, *;
      if sequence !in stored.Keys && sequence !in captured {  // advisories name stored messages
        stored := stored[sequence := message];
        stream := stream[sequence := message];
      }
      var table: map<InvestigationId, Row> := *;
      if TableEvolves(pass.repository.table, table, concluded) {
        pass.repository.table := table;
      }
      var later: Time := *;
      if later >= pass.repository.now {
        pass.repository.now := later;
      }
    }

    /** `get_msg`; Ok(None) is NotFoundError. */
    method GetMessage(sequence: nat) returns (r: Result<Option<Message>, Failure>)
      ensures r.Ok? ==> r.value == if sequence in stream then Some(stream[sequence]) else None
      ensures pass.calm ==> r.Ok?
    {
      var fails: bool := *;
      r := if !pass.calm && fails then Err(BrokerUnavailable)
           else if sequence in stream then Ok(Some(stream[sequence])) else Ok(None);
    }

    /** `delete_msg`, for which NotFoundError counts as done; another error may come before or after the delete. */
    method DeleteFromStream(sequence: nat) returns (r: Result<bool, Failure>)
      requires Valid() && sequence in stored
      requires stored[sequence].WellFormed? ==> stored[sequence].investigation in concluded
      modifies this`stream, this`deleted, this`undeleted
      ensures Valid() && StreamEvolves()
      ensures r.Ok? ==> sequence !in stream && undeleted == old(undeleted)
      ensures r.Err? ==> undeleted == old(undeleted) + {sequence}
      ensures pass.calm ==> r.Ok?
      ensures forall q :: q in old(stream) && q != sequence ==> q in stream
    {
      var reached: bool := *;
      if pass.calm || reached {
        stream := stream - {sequence};
        deleted := deleted + {sequence};
        var answered: bool := *;
        r := if pass.calm || answered then Ok(true) else Err(BrokerUnavailable);
      } else {
        r := Err(BrokerUnavailable);
      }
      if r.Err? {
        undeleted := undeleted + {sequence};
      }
    }

    ghost predicate Carries(n: Notice)
      reads this
    {
      n.sequence in captured && n.sequence in stored && stored[n.sequence] == WellFormed(n.investigation)
    }

    /** A captured sequence of this pass is dealt with, or it has its notice. */
    ghost predicate Noticed(q: nat, notices: seq<Notice>)
      reads this
    {
      q in stream ==> q in stored && stored[q].WellFormed? && Notice(stored[q].investigation, q) in notices
    }

    /** The messages that are gone were captured ones with a payload that does not validate. */
    twostate predicate OnlyMalformedGone()
      reads this
    {
      forall q :: q in old(stream) && q !in stream ==> q in old(captured) && old(stream)[q].Malformed?
    }

    /**
      `receive`: every notice stands for a stored message, and every message
      captured before has one; an exception loses nothing.
    */
    method Receive() returns (r: Result<seq<Notice>, Failure>)
      requires Valid()
      modifies this`sequences, this`pending, this`captured, this`stream, this`stored, this`deleted, this`undeleted, pass.repository
      ensures Valid() && StreamEvolves() && concluded == old(concluded)
      ensures r.Ok? ==> forall n :: n in r.value ==> Carries(n)
      ensures r.Ok? ==> forall q :: q in old(captured) ==> Noticed(q, r.value)
      ensures pass.calm ==> r.Ok? && Undisturbed() && OnlyMalformedGone()
    {
      while sequences != []
        invariant Valid() && concluded == old(concluded)
        modifies this`sequences, this`pending
        invariant Undisturbed() && stream == old(stream)
        decreases |sequences|
      {
        pending := pending + {sequences[0]};
        assert forall q :: q in sequences ==> q == sequences[0] || q in sequences[1..];
        sequences := sequences[1..];
      }
      var notices: seq<Notice> := [];
      var order := Sorted(pending);
      for i := 0 to |order|
        invariant Valid() && StreamEvolves() && concluded == old(concluded)
        invariant forall n :: n in notices ==> Carries(n)
        invariant forall q :: q in order ==> q in captured
        invariant forall q :: q in old(captured) ==> q in order[i..] || Noticed(q, notices)
        invariant pass.calm ==> Undisturbed() && OnlyMalformedGone()
      {
        assert forall q :: q in order[i..] ==> q == order[i] || q in order[i + 1..];
        var received := ReceiveOne(order[i], notices);
        if received.Err? {
          return Err(received.error);
        }
        notices := received.value;
      }
      r := Ok(notices);
    }

    /** One pending sequence: forgotten if its message is gone or malformed, else one notice more. */
    method ReceiveOne(sequence: nat, notices: seq<Notice>) returns (r: Result<seq<Notice>, Failure>)
      requires Valid() && sequence in captured && forall n :: n in notices ==> Carries(n)
      modifies this`sequences, this`pending, this`captured, this`stream, this`stored, this`deleted, this`undeleted, pass.repository
      ensures Valid() && StreamEvolves()
      ensures r.Ok? ==> notices <= r.value && (forall n :: n in r.value ==> Carries(n)) && Noticed(sequence, r.value)
      ensures pass.calm ==> r.Ok? && Undisturbed() && OnlyMalformedGone()
    {
      Await();
      r := Ok(notices);
      var raw := GetMessage(sequence);
      match raw {
        case Err(e) => r := Err(e);
        case Ok(None) => pending := pending - {sequence};
        case Ok(Some(Malformed)) =>
          var removed := DeleteFromStream(sequence);
          if removed.Err? {
            return Err(removed.error);
          }
          pending := pending - {sequence};
        case Ok(Some(WellFormed(id))) => r := Ok(notices + [Notice(id, sequence)]);
      }
    }

    method DeleteMessage(sequence: nat) returns (r: Result<bool, Failure>)
      requires Valid() && sequence in stored
      requires stored[sequence].WellFormed? ==> stored[sequence].investigation in concluded
      modifies this`stream, this`deleted, this`pending, this`undeleted
      ensures Valid() && StreamEvolves() && old(undeleted) <= undeleted
      ensures pending == if r.Ok? then old(pending) - {sequence} else old(pending)
      ensures sequence !in stream || sequence in undeleted
      ensures pass.calm ==> r.Ok? && Undisturbed()
      ensures forall q :: q in old(stream) && q != sequence ==> q in stream
    {
      r := DeleteFromStream(sequence);
      if r.Ok? {
        pending := pending - {sequence};
      }
    }

    function OutcomeOf(results: seq<MaxDeliveryResult>, id: InvestigationId): (o: Option<MaxDeliveryOutcome>)
      ensures o.Some? ==> MaxDeliveryResult(id, o.value) in results
      ensures o.None? ==> forall i :: 0 <= i < |results| ==> results[i].id != id
    {
      if results == [] then None
      else if results[0].id == id then Some(results[0].outcome)
      else OutcomeOf(results[1..], id)
    }

    /** The pass found the investigation under a live lease. */
    ghost predicate FoundLive(id: InvestigationId)
      reads this
    {
      id in reading && reading[id].status == Processing && reading[id].lease.Some? && reading[id].lease.value >= readAt
    }

    /** The results are those of the rows the pass read. */
    ghost predicate FromReading(results: seq<MaxDeliveryResult>)
      reads this
    {
      forall result :: result in results ==>
        && (result.outcome in CLEANUP ==> result.id in concluded)
        && (result.outcome in CLEANUP <==> !FoundLive(result.id))
    }

    /** What a pass leaves of a sequence: nothing, a failed deletion, or an investigation it found live. */
    ghost predicate Settles(q: nat)
      reads this
    {
      q in stream ==> q in undeleted || (q in stored && stored[q].WellFormed? && FoundLive(stored[q].investigation))
    }

    /** The messages that are gone were captured ones of investigations not found live. */
    twostate predicate OnlySettledGone()
      reads this
    {
      forall q :: q in old(stream) && q !in stream ==>
        q in captured && q in stored && stored[q].WellFormed? && !FoundLive(stored[q].investigation)
    }

    /** The cleanup of one notice after the commit; a failed deletion is logged, and the sequence stays pending. */
    method CleanUp(notice: Notice, results: seq<MaxDeliveryResult>)
      requires Valid() && Carries(notice) && FromReading(results) && Answered(results, notice.investigation)
      modifies this`sequences, this`pending, this`captured, this`stream, this`stored, this`deleted, this`undeleted, pass.repository
      ensures Valid() && StreamEvolves() && old(undeleted) <= undeleted && FromReading(results)
      ensures Settles(notice.sequence)
      ensures pass.calm ==> Undisturbed() && OnlySettledGone()
    {
      var outcome := OutcomeOf(results, notice.investigation);
      assert outcome.Some?;
      if outcome.value in CLEANUP {
        Await();
        var removed := DeleteMessage(notice.sequence);
      }
    }

    /** The reconciliation pass over the investigations of the notices. */
    method ReconcileNotices(notices: seq<Notice>, applicationNow: Time) returns (r: Result<seq<MaxDeliveryResult>, string>)
      requires Valid() && forall n :: n in notices ==> Carries(n)
      modifies this`reading, this`readAt, this`concluded, pass.repository
      ensures Valid() && old(concluded) <= concluded
      ensures r.Err? ==> concluded == old(concluded) && !pass.calm
      ensures r.Ok? ==> FromReading(r.value) && forall n :: n in notices ==> Answered(r.value, n.investigation)
      ensures reading == old(pass.repository.table) && readAt == old(pass.repository.now)
    {
      var ids := seq(|notices|, i requires 0 <= i < |notices| => notices[i].investigation);
      reading, readAt := pass.repository.table, pass.repository.now;
      r := pass.Execute(ids, applicationNow);
      if r.Ok? {
        ConcludedAreGone(pass.repository.table, r.value);
        concluded := concluded + Concluded(r.value);
        forall n | n in notices
          ensures Answered(r.value, n.investigation)
        {
          var i :| 0 <= i < |notices| && notices[i] == n;
          assert ids[i] in ids;
        }
      }
    }

    method CleanUpAll(notices: seq<Notice>, results: seq<MaxDeliveryResult>)
      requires Valid() && forall n :: n in notices ==> Carries(n)
      requires FromReading(results)
      requires forall n :: n in notices ==> Answered(results, n.investigation)
      modifies this`sequences, this`pending, this`captured, this`stream, this`stored, this`deleted, this`undeleted, pass.repository
      ensures Valid() && StreamEvolves() && old(undeleted) <= undeleted
      ensures forall n :: n in notices ==> Settles(n.sequence)
      ensures pass.calm ==> Undisturbed() && OnlySettledGone()
    {
      for i := 0 to |notices|
        invariant Valid() && StreamEvolves() && old(undeleted) <= undeleted
        invariant FromReading(results)
        invariant forall n :: n in notices ==> Carries(n)
        invariant forall j :: 0 <= j < i ==> Settles(notices[j].sequence)
        invariant pass.calm ==> Undisturbed() && OnlySettledGone()
      {
        assert notices[i] in notices;
        assert forall j :: 0 <= j < i ==> Carries(notices[j]);
        CleanUp(notices[i], results);
      }
    }

    /** `run_once` after the notices are received: the pass, and then the cleanup. */
    method Conclude(notices: seq<Notice>, applicationNow: Time) returns (r: Result<seq<MaxDeliveryResult>, Failure>)
      requires Valid() && forall n :: n in notices ==> Carries(n)
      modifies this, pass.repository
      ensures Valid() && StreamEvolves() && old(undeleted) <= undeleted
      ensures old(concluded) <= concluded && (r.Err? ==> concluded == old(concluded))
      ensures r.Ok? ==> forall n :: n in notices ==> Settles(n.sequence)
      ensures pass.calm ==>
                && r.Ok? && undeleted == old(undeleted) && captured == old(captured) && stored == old(stored)
                && reading == old(pass.repository.table) && readAt == old(pass.repository.now) && OnlySettledGone()
    {
      hide Conserved, DeletionsOk, Settles, Answered;
      Await();
      var reconciled := ReconcileNotices(notices, applicationNow);
      if reconciled.Err? {
        return Err(DatabaseUnavailable);
      }
      CleanUpAll(notices, reconciled.value);
      r := Ok(reconciled.value);
    }

    /**
      `run_once`: whatever fails on the way, no captured sequence whose message
      still exists is forgotten, and a well-formed message is deleted only once
      its investigation's outcome - failed, already terminal or missing - is
      committed.  Of everything captured before it, a pass that returns leaves
      only messages whose deletion failed and those of investigations it found
      under a live lease; undisturbed, it returns and deletes exactly the rest.
    */
    method RunOnce(applicationNow: Time) returns (r: Result<seq<MaxDeliveryResult>, Failure>)
      requires Valid()
      modifies this, pass.repository
      ensures Valid()
      ensures old(concluded) <= concluded
      ensures r.Err? ==> concluded == old(concluded)
      ensures r.Ok? ==> forall q :: q in old(captured) ==> Settles(q)
      ensures pass.calm ==> r.Ok? && undeleted == {} && reading == old(pass.repository.table) && readAt == old(pass.repository.now)
      ensures pass.calm ==> forall q :: q in old(stream) ==>
                (q in stream <==> || q !in old(captured)
                                  || (old(stream)[q].WellFormed? && FoundLive(old(stream)[q].investigation)))
    {
      undeleted := {};
      var received := Receive();
      if received.Err? {
        return Err(received.error);
      }
      r := Conclude(received.value, applicationNow);
    }
  }
}
