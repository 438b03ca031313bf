/**
 * What one callback does to the table of calls, handler by handler, as
 * the code in app/services/call_processor.py behaves (not as one might
 * expect it to: event names are case-sensitive, an absent `duration`
 * counts as 0, and no handler looks at whether the call already ended).
 */
module EventProperties {
  import opened Wrappers
  import opened Helpers
  import opened CallModel
  import opened IntText
  import opened CallProcessor

  /** A callback in neither dialect changes nothing. */
  lemma UnknownDialectIgnored(calls: CallTable, params: Params, now: int, stamp: string)
    requires WellFormed(params) && DeterminePhoneType(params) == UnknownType
    ensures Step(calls, params, now, stamp) == calls
  {
  }

  /** An event name outside the fixed vocabulary changes nothing. */
  lemma UnlistedEventIgnored(calls: CallTable, params: Params, now: int, stamp: string)
    requires WellFormed(params) && Arg(params, "event", UnknownText) !in Vocabulary
    ensures Step(calls, params, now, stamp) == calls
  {
  }

  /** Matching is exact: other spellings of listed names are not recognised. */
  lemma EventNamesAreCaseSensitive()
    ensures EventKindOf("call-end") == Some(EndEvent)
    ensures EventKindOf("Call-End").None? && EventKindOf("CALL-START").None? && EventKindOf("Hold").None?
  {
  }

  /**
   * A start event for a call id not in the table adds exactly one row,
   * "in_progress", incoming exactly for `incoming-call`, with the phone as
   * the caller of an outgoing call and as the callee of an incoming one.
   */
  lemma StartCreatesOneRecord(calls: CallTable, params: Params, now: int, stamp: string, d: Descriptor)
    requires WellFormed(params) && Canonicalise(params, stamp) == Some(d)
    requires d.event in EventNames(StartEvent) && d.callId !in calls
    ensures var after := Step(calls, params, now, stamp);
      && after.Keys == calls.Keys + {d.callId}
      && |after| == |calls| + 1
      && (forall id :: id in calls ==> after[id] == calls[id])
      && after[d.callId].callId == d.callId
      && after[d.callId].status == InProgress
      && after[d.callId].started == Some(now)
      && (after[d.callId].direction == Incoming <==> d.event == "incoming-call")
      && (d.event == "call-start" ==>
            after[d.callId].fromNumber == d.phoneMac && after[d.callId].toNumber == d.remoteNumber)
      && (d.event == "incoming-call" ==>
            after[d.callId].fromNumber == d.remoteNumber && after[d.callId].toNumber == d.phoneMac)
  {
  }

  /** A start event for a call id already in the table is a no-op (re-delivery is tolerated). */
  lemma StartOnExistingIgnored(calls: CallTable, params: Params, now: int, stamp: string, d: Descriptor)
    requires WellFormed(params) && Canonicalise(params, stamp) == Some(d)
    requires d.event in EventNames(StartEvent) && d.callId in calls
    ensures Step(calls, params, now, stamp) == calls
  {
  }

  /**
   * A start callback that carries its own call id, delivered twice, leaves
   * the table as the first delivery left it, whatever the clock and the
   * timestamp text of each delivery.
   */
  lemma StartIsIdempotent(calls: CallTable, params: Params, now: int, later: int, stamp: string, laterStamp: string)
    requires WellFormed(params) && DeterminePhoneType(params) != UnknownType
    requires Arg(params, "event", UnknownText) in EventNames(StartEvent)
    requires Arg(params, "callid", UnknownText) != UnknownText
    ensures var once := Step(calls, params, now, stamp);
      Step(once, params, later, laterStamp) == once
  {
  }

  /**
   * Without `callid` the id is built from the timestamp text, so the same
   * start callback delivered at two different seconds creates two rows.
   */
  lemma StartWithoutCallIdTwiceAddsTwoRows(now: int, later: int)
    ensures var params := map["event" := Scalar("call-start"), "phone" := Scalar("AA")];
      var once := Step(map[], params, now, "s1");
      Step(once, params, later, "s2").Keys == {"AA_s1", "AA_s2"}
  {
    var params := map["event" := Scalar("call-start"), "phone" := Scalar("AA")];
    assert "callid" !in params && "remotenumber" !in params && "number" !in params;
    assert "AA" + "_" + "s1" == "AA_s1" && "AA" + "_" + "s2" == "AA_s2";
    assert Canonicalise(params, "s1") == Some(Descriptor(Yealink, "call-start", "AA_s1", "AA", "unknown"));
    assert Canonicalise(params, "s2") == Some(Descriptor(Yealink, "call-start", "AA_s2", "AA", "unknown"));
  }

  /** Any other event for a call id not in the table changes nothing and creates nothing. */
  lemma MissingRecordNotCreated(calls: CallTable, params: Params, now: int, stamp: string, d: Descriptor)
    requires WellFormed(params) && Canonicalise(params, stamp) == Some(d)
    requires d.event !in EventNames(StartEvent) && d.callId !in calls
    ensures Step(calls, params, now, stamp) == calls
  {
  }

  /**
   * Established, connected and resume events set the status to "answered"
   * and change nothing else, whatever the status was, an ended call included.
   */
  lemma AnswerSetsAnswered(calls: CallTable, params: Params, now: int, stamp: string, d: Descriptor)
    requires WellFormed(params) && Canonicalise(params, stamp) == Some(d)
    requires d.event in EventNames(EstablishedEvent) || d.event in EventNames(ResumeEvent)
    requires d.callId in calls
    ensures Step(calls, params, now, stamp) == calls[d.callId := calls[d.callId].(status := Answered)]
  {
  }

  /** Hold events set the status to "on_hold" and change nothing else, an ended call included. */
  lemma HoldSetsOnHold(calls: CallTable, params: Params, now: int, stamp: string, d: Descriptor)
    requires WellFormed(params) && Canonicalise(params, stamp) == Some(d)
    requires d.event in EventNames(HoldEvent) && d.callId in calls
    ensures Step(calls, params, now, stamp) == calls[d.callId := calls[d.callId].(status := OnHold)]
  {
  }

  /** A transfer event appends exactly one destination to the call's list and keeps the rest. */
  lemma TransferAppendsOne(calls: CallTable, params: Params, now: int, stamp: string, d: Descriptor)
    requires WellFormed(params) && Canonicalise(params, stamp) == Some(d)
    requires d.event in EventNames(TransferEvent) && d.callId in calls
    ensures var after := Step(calls, params, now, stamp);
      && after.Keys == calls.Keys
      && TransferList(after[d.callId]) == TransferList(calls[d.callId]) + [TransferTarget(params, d.phoneType)]
      && after[d.callId].(transfers := calls[d.callId].transfers) == calls[d.callId]
      && (forall id :: id in calls && id != d.callId ==> after[id] == calls[id])
  {
  }

  /** An end event replaces the row with its ended form, the duration read from `duration` (default "0"). */
  lemma EndResolves(calls: CallTable, params: Params, now: int, stamp: string, d: Descriptor)
    requires WellFormed(params) && Canonicalise(params, stamp) == Some(d)
    requires d.event == "call-end" && d.callId in calls
    ensures var after := Step(calls, params, now, stamp);
      var duration := ResolveDuration(Arg(params, "duration", "0"), calls[d.callId].started, now);
      && after == calls[d.callId := EndedCall(calls[d.callId], Arg(params, "duration", "0"), now)]
      && after[d.callId].finished == Some(now)
      && after[d.callId].totalDuration == Some(duration)
      && (after[d.callId].status == Successful <==> calls[d.callId].status == Answered || duration > 5)
  {
  }

  /** A numeric `duration` that fits the 64-bit INTEGER column wins over the elapsed time, whatever `started` holds. */
  lemma ExplicitDurationWins(n: int, started: Option<int>, now: int)
    requires -0x8000_0000_0000_0000 <= n < 0x8000_0000_0000_0000
    ensures ResolveDuration(IntToText(n), started, now) == n
  {
    ParseIntRoundTrip(n);
  }

  /** An absent `duration` reads as "0", so the duration is 0, not the elapsed time. */
  lemma AbsentDurationIsZero(params: Params, started: Option<int>, now: int)
    requires WellFormed(params) && "duration" !in params
    ensures ResolveDuration(Arg(params, "duration", "0"), started, now) == 0
  {
  }

  /** An answered call always ends successfully; an unanswered one only when it lasted over five seconds. */
  lemma EndSuccessRule(c: Call, durationParam: string, now: int)
    ensures c.status == Answered ==> EndedCall(c, durationParam, now).status == Successful
    ensures c.status != Answered && ResolveDuration(durationParam, c.started, now) <= 5 ==>
      EndedCall(c, durationParam, now).status == Unsuccessful
    ensures c.status != Answered && ResolveDuration(durationParam, c.started, now) > 5 ==>
      EndedCall(c, durationParam, now).status == Successful
  {
  }

  /** Nothing guards against a second end: it overwrites the end time, the duration and the status. */
  lemma SecondEndOverwrites(c: Call, firstParam: string, secondParam: string, firstNow: int, secondNow: int)
    ensures var twice := EndedCall(EndedCall(c, firstParam, firstNow), secondParam, secondNow);
      && twice.finished == Some(secondNow)
      && twice.totalDuration == Some(ResolveDuration(secondParam, c.started, secondNow))
  {
  }
}
