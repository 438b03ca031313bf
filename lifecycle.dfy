/**
 * Whole sequences of callbacks: the table after each callback in turn,
 * and what every sequence preserves about the rows already in it.
 */
module Lifecycle {
  import opened Wrappers
  import opened Helpers
  import opened CallModel
  import opened IntText
  import opened CallProcessor

  /** One callback: its parameters, the clock and the timestamp text at that moment. */
  datatype Callback = Callback(params: Params, now: int, stamp: string)

  ghost predicate AllWellFormed(callbacks: seq<Callback>)
  {
    forall i :: 0 <= i < |callbacks| ==> WellFormed(callbacks[i].params)
  }

  /** The table after processing the callbacks one at a time, in order. */
  function Run(calls: CallTable, callbacks: seq<Callback>): CallTable
    requires AllWellFormed(callbacks)
    decreases |callbacks|
  {
    if callbacks == [] then calls
    else
      var first := callbacks[0];
      Run(Step(calls, first.params, first.now, first.stamp), callbacks[1..])
  }

  /** A later version of the same row: identity, parties, start and direction kept, transfers only extended. */
  ghost predicate Evolves(before: Call, after: Call)
  {
    && after.callId == before.callId
    && after.fromNumber == before.fromNumber
    && after.toNumber == before.toNumber
    && after.phoneMac == before.phoneMac
    && after.started == before.started
    && after.direction == before.direction
    && TransferList(before) <= TransferList(after)
  }

  /** No row removed, and every row a later version of itself. */
  ghost predicate TableEvolves(before: CallTable, after: CallTable)
  {
    && before.Keys <= after.Keys
    && forall id :: id in before ==> Evolves(before[id], after[id])
  }

  /** Rows the processor writes have a start time and a (possibly empty) transfer list. */
  ghost predicate RowsComplete(calls: CallTable)
  {
    forall id :: id in calls ==> calls[id].started.Some? && calls[id].transfers.Some?
  }

  /** Replacing an existing row by a later version of it. */
  lemma UpdatePreserves(calls: CallTable, id: string, c: Call)
    requires id in calls && Evolves(calls[id], c)
    ensures TableEvolves(calls, calls[id := c])
    ensures KeyedById(calls) ==> KeyedById(calls[id := c])
    ensures RowsComplete(calls) && c.transfers.Some? ==> RowsComplete(calls[id := c])
  {
  }

  /** One callback keeps the primary key, keeps complete rows complete, and only evolves existing rows. */
  lemma StepPreserves(calls: CallTable, params: Params, now: int, stamp: string)
    requires WellFormed(params)
    ensures TableEvolves(calls, Step(calls, params, now, stamp))
    ensures KeyedById(calls) ==> KeyedById(Step(calls, params, now, stamp))
    ensures RowsComplete(calls) ==> RowsComplete(Step(calls, params, now, stamp))
  {
    match Canonicalise(params, stamp)
    case None =>
    case Some(d) =>
      var id := d.callId;
      match EventKindOf(d.event)
      case None =>
      case Some(StartEvent) =>
        if id !in calls {
          var c := StartedCall(d.event, id, d.phoneMac, d.remoteNumber, now);
          assert Step(calls, params, now, stamp) == calls[id := c];
        }
      case Some(EstablishedEvent) =>
        if id in calls { UpdatePreserves(calls, id, calls[id].(status := Answered)); }
      case Some(EndEvent) =>
        if id in calls { UpdatePreserves(calls, id, EndedCall(calls[id], Arg(params, "duration", "0"), now)); }
      case Some(HoldEvent) =>
        if id in calls { UpdatePreserves(calls, id, calls[id].(status := OnHold)); }
      case Some(ResumeEvent) =>
        if id in calls { UpdatePreserves(calls, id, calls[id].(status := Answered)); }
      case Some(TransferEvent) =>
        if id in calls { UpdatePreserves(calls, id, TransferredCall(calls[id], TransferTarget(params, d.phoneType))); }
  }

  /** A row appears only through a start event carrying its call id. */
  lemma StepCreatesOnlyOnStart(calls: CallTable, params: Params, now: int, stamp: string, id: string)
    requires WellFormed(params)
    requires id in Step(calls, params, now, stamp) && id !in calls
    ensures Canonicalise(params, stamp).Some?
    ensures Canonicalise(params, stamp).value.event in EventNames(StartEvent)
    ensures Canonicalise(params, stamp).value.callId == id
  {
  }

  lemma TableEvolvesTransitive(a: CallTable, b: CallTable, c: CallTable)
    requires TableEvolves(a, b) && TableEvolves(b, c)
    ensures TableEvolves(a, c)
  {
  }

  /**
   * Over any sequence of callbacks: no row is deleted, call id, parties,
   * start time and direction never change, transfers are only appended to,
   * and the primary key and complete rows are kept.
   */
  lemma {:induction false} RunPreserves(calls: CallTable, callbacks: seq<Callback>)
    requires AllWellFormed(callbacks)
    ensures TableEvolves(calls, Run(calls, callbacks))
    ensures KeyedById(calls) ==> KeyedById(Run(calls, callbacks))
    ensures RowsComplete(calls) ==> RowsComplete(Run(calls, callbacks))
    decreases |callbacks|
  {
    if callbacks != [] {
      var first := callbacks[0];
      var next := Step(calls, first.params, first.now, first.stamp);
      StepPreserves(calls, first.params, first.now, first.stamp);
      assert AllWellFormed(callbacks[1..]) by {
        forall i | 0 <= i < |callbacks[1..]|
          ensures WellFormed(callbacks[1..][i].params)
        {
          assert callbacks[1..][i] == callbacks[i + 1];
        }
      }
      RunPreserves(next, callbacks[1..]);
      TableEvolvesTransitive(calls, next, Run(next, callbacks[1..]));
    }
  }

  /**
   * From an empty table every row has a start time and a transfer list,
   * so the null-`started` and null-`transfers` branches of the end and
   * transfer handlers are never taken for rows this processor wrote.
   */
  lemma RunFromEmptyRowsComplete(callbacks: seq<Callback>)
    requires AllWellFormed(callbacks)
    ensures RowsComplete(Run(map[], callbacks)) && KeyedById(Run(map[], callbacks))
  {
    RunPreserves(map[], callbacks);
  }

  /** The first worked scenario: phone AA:BB reports an incoming call C1 from 555. */
  function IncomingCallParams(): Params
  {
    map["event" := Scalar("incoming-call"), "phone" := Scalar("AA:BB"),
        "callid" := Scalar("C1"), "number" := Scalar("555")]
  }

  /** The second worked scenario: the same phone reports the end of C1 after 12 seconds. */
  function CallEndParams(): Params
  {
    map["event" := Scalar("call-end"), "phone" := Scalar("AA:BB"),
        "callid" := Scalar("C1"), "duration" := Scalar("12")]
  }

  /** The row the incoming call creates: from the caller to the phone, in progress. */
  lemma IncomingCallScenario(now: int, stamp: string)
    ensures Step(map[], IncomingCallParams(), now, stamp)
      == map["C1" := Call("C1", "555", "AA:BB", "AA:BB", Some(now), None, Incoming, InProgress, None, Some([]))]
  {
  }

  /** Ending that call with `duration=12` records 12 seconds and, as 12 > 5, success. */
  lemma CallEndScenario(started: int, now: int, stamp: string)
    ensures var before := map["C1" := Call("C1", "555", "AA:BB", "AA:BB", Some(started), None, Incoming, InProgress, None, Some([]))];
      var after := Step(before, CallEndParams(), now, stamp);
      && after.Keys == {"C1"}
      && after["C1"].status == Successful
      && after["C1"].totalDuration == Some(12)
      && after["C1"].finished == Some(now)
  {
    var params := CallEndParams();
    assert Canonicalise(params, stamp) == Some(Descriptor(Yealink, "call-end", "C1", "AA:BB", "unknown"));
    assert Arg(params, "duration", "0") == "12";
    assert ParseInt("12") == Some(12) by {
      assert "12"[..1] == "1" && "1"[..0] == "";
      assert DigitsValue("12") == DigitsValue("1") * 10 + 2;
    }
  }

  /** A callback with neither `phone` nor `mac` creates no row. */
  lemma NoDialectScenario(calls: CallTable)
    ensures Run(calls, [Callback(map["event" := Scalar("call-start"), "callid" := Scalar("C2")], 5, "x")]) == calls
  {
  }
}
