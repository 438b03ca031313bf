/**
 * The call state processor of app/services/call_processor.py.
 *
 * The first half is the specification, as functions: canonicalising the
 * raw parameters into an event descriptor, the row-level transitions,
 * the dispatch on the event name and `Step`, the effect of one callback
 * on the whole table. The second half is `CallStore`, whose methods do the
 * same work the way the source does it: fetch the row, change it, write it
 * back. Each callback is one atomic step; `now` is the wall clock in
 * whole seconds and `stamp` the text of the `%Y%m%d%H%M%S` timestamp.
 */
module CallProcessor {
  import opened Wrappers
  import opened Helpers
  import opened CallModel
  import opened IntText

  /** The six handlers `_handle_event` can dispatch to. */
  datatype EventKind = StartEvent | EstablishedEvent | EndEvent | HoldEvent | ResumeEvent | TransferEvent

  /** The event names each handler answers to; matching is exact and case-sensitive. */
  function EventNames(kind: EventKind): seq<string>
  {
    match kind
    case StartEvent => ["call-start", "incoming-call"]
    case EstablishedEvent => ["call-established", "call-connected"]
    case EndEvent => ["call-end"]
    case HoldEvent => ["hold", "call-hold"]
    case ResumeEvent => ["resume", "call-resume"]
    case TransferEvent => ["transfer", "call-transfer", "attended-transfer"]
  }

  /** Every event name some handler answers to. */
  const Vocabulary: set<string> := {
    "call-start", "incoming-call", "call-established", "call-connected", "call-end",
    "hold", "call-hold", "resume", "call-resume", "transfer", "call-transfer", "attended-transfer"
  }

  /** The `if`/`elif` chain of `_handle_event`: the first list holding the name picks the handler. */
  function EventKindOf(event: string): (k: Option<EventKind>)
    ensures k.Some? ==> event in EventNames(k.value)
    ensures k.None? ==> forall kind :: event !in EventNames(kind)
    ensures k.Some? <==> event in Vocabulary
  {
    if event in EventNames(StartEvent) then Some(StartEvent)
    else if event in EventNames(EstablishedEvent) then Some(EstablishedEvent)
    else if event in EventNames(EndEvent) then Some(EndEvent)
    else if event in EventNames(HoldEvent) then Some(HoldEvent)
    else if event in EventNames(ResumeEvent) then Some(ResumeEvent)
    else if event in EventNames(TransferEvent) then Some(TransferEvent)
    else None
  }

  /** What `process_event` extracts from the parameters before dispatching. */
  datatype Descriptor = Descriptor(
    phoneType: PhoneType,
    event: string,
    callId: string,
    phoneMac: string,
    remoteNumber: string)

  /**
   * Key selection and call-id synthesis in `process_event`: None for an
   * unknown dialect; otherwise the dialect's keys, with a call id of
   * "unknown" (absent or given so) replaced by `phone_mac + "_" + stamp`.
   */
  function Canonicalise(params: Params, stamp: string): (r: Option<Descriptor>)
    requires WellFormed(params)
    ensures r.None? <==> DeterminePhoneType(params) == UnknownType
    ensures r.Some? ==> r.value.phoneType == DeterminePhoneType(params)
    ensures r.Some? ==> r.value.event == Arg(params, "event", UnknownText)
    ensures r.Some? && r.value.phoneType == Yealink ==>
      && r.value.phoneMac == Arg(params, "phone", UnknownText)
      && r.value.remoteNumber ==
         (if "remotenumber" in params then FirstText(params["remotenumber"])
          else Arg(params, "number", UnknownText))
    ensures r.Some? && r.value.phoneType == Cisco ==>
      && r.value.phoneMac == Arg(params, "mac", UnknownText)
      && r.value.remoteNumber == Arg(params, "number", UnknownText)
    ensures r.Some? ==>
      var given := Arg(params, "callid", UnknownText);
      r.value.callId == if given == UnknownText then r.value.phoneMac + "_" + stamp else given
  {
    var phoneType := DeterminePhoneType(params);
    if phoneType == UnknownType then None
    else
      var event := Arg(params, "event", UnknownText);
      var phoneMac := Arg(params, if phoneType == Yealink then "phone" else "mac", UnknownText);
      var given := Arg(params, "callid", UnknownText);
      var number := Arg(params, "number", UnknownText);
      var remoteNumber := if phoneType == Yealink then Arg(params, "remotenumber", number) else number;
      var callId := if given == UnknownText then phoneMac + "_" + stamp else given;
      Some(Descriptor(phoneType, event, callId, phoneMac, remoteNumber))
  }

  /**
   * The row `_handle_call_start` inserts: the direction follows the event
   * name, and the phone is the caller of an outgoing call and the callee
   * of an incoming one.
   */
  function StartedCall(event: string, callId: string, phoneMac: string, remoteNumber: string, now: int): (c: Call)
    ensures c.direction == Incoming <==> event == "incoming-call"
    ensures c.direction == Outgoing ==> c.fromNumber == phoneMac && c.toNumber == remoteNumber
    ensures c.direction == Incoming ==> c.fromNumber == remoteNumber && c.toNumber == phoneMac
    ensures c.callId == callId && c.phoneMac == phoneMac && c.status == InProgress
    ensures c.started == Some(now) && c.finished.None? && c.totalDuration.None? && TransferList(c) == []
  {
    var direction := if event == "incoming-call" then Incoming else Outgoing;
    var fromNumber := if direction == Outgoing then phoneMac else remoteNumber;
    var toNumber := if direction == Outgoing then remoteNumber else phoneMac;
    NewCall(callId, fromNumber, toNumber, phoneMac, direction, now)
  }

  /**
   * The duration `_handle_call_end` records: the parsed parameter when it
   * parses; otherwise the time since `started`, or 0 when that is unset.
   */
  function ResolveDuration(durationParam: string, started: Option<int>, now: int): (d: int)
    ensures ParseInt(durationParam).Some? ==> d == ParseInt(durationParam).value
    ensures ParseInt(durationParam).None? && started.Some? ==> d == now - started.value
    ensures ParseInt(durationParam).None? && started.None? ==> d == 0
  {
    match ParseInt(durationParam)
    case Some(n) => n
    case None => if started.Some? then now - started.value else 0
  }

  /**
   * The row after `_handle_call_end`: finished now, with the resolved
   * duration, successful exactly when it had been answered or lasted
   * more than five seconds; nothing else changes.
   */
  function EndedCall(c: Call, durationParam: string, now: int): (r: Call)
    ensures r.finished == Some(now)
    ensures r.totalDuration == Some(ResolveDuration(durationParam, c.started, now))
    ensures r.status == Successful <==> c.status == Answered || ResolveDuration(durationParam, c.started, now) > 5
    ensures r.status == Successful || r.status == Unsuccessful
    ensures r.(finished := c.finished, totalDuration := c.totalDuration, status := c.status) == c
  {
    var duration := ResolveDuration(durationParam, c.started, now);
    var status := if c.status == Answered || duration > 5 then Successful else Unsuccessful;
    c.(finished := Some(now), totalDuration := Some(duration), status := status)
  }

  /** The transfer destination: `transfer` for Cisco, `transfer_to` otherwise, "unknown" when absent. */
  function TransferTarget(params: Params, phoneType: PhoneType): (t: string)
    requires WellFormed(params)
    ensures phoneType == Cisco && "transfer" in params ==> t == FirstText(params["transfer"])
    ensures phoneType != Cisco && "transfer_to" in params ==> t == FirstText(params["transfer_to"])
    ensures (if phoneType == Cisco then "transfer" else "transfer_to") !in params ==> t == "unknown"
  {
    if phoneType == Cisco then Arg(params, "transfer", UnknownText) else Arg(params, "transfer_to", UnknownText)
  }

  /** The row after `_handle_call_transfer`: one destination appended, a null list read as empty. */
  function TransferredCall(c: Call, target: string): (r: Call)
    ensures r.transfers.Some? && TransferList(r) == TransferList(c) + [target]
    ensures r.(transfers := c.transfers) == c
  {
    c.(transfers := Some(TransferList(c) + [target]))
  }

  /** `_handle_event` and its handlers, on the table: `d.callId` is the only key that can change. */
  function Dispatch(calls: CallTable, d: Descriptor, params: Params, now: int): (r: CallTable)
    requires WellFormed(params)
    ensures EventKindOf(d.event).None? ==> r == calls
    ensures forall id :: id in calls && id != d.callId ==> id in r && r[id] == calls[id]
    ensures d.callId in calls ==> r.Keys == calls.Keys
    ensures d.callId !in calls ==>
      r.Keys == if EventKindOf(d.event) == Some(StartEvent) then calls.Keys + {d.callId} else calls.Keys
  {
    match EventKindOf(d.event)
    case None => calls
    case Some(StartEvent) =>
      if d.callId in calls then calls
      else calls[d.callId := StartedCall(d.event, d.callId, d.phoneMac, d.remoteNumber, now)]
    case Some(kind) =>
      if d.callId !in calls then calls
      else calls[d.callId := Handled(kind, calls[d.callId], d.phoneType, params, now)]
  }

  /** The row after the handler of `kind` has run on an existing row (a start leaves it as it is). */
  function Handled(kind: EventKind, c: Call, phoneType: PhoneType, params: Params, now: int): Call
    requires WellFormed(params)
  {
    match kind
    case StartEvent => c
    case EstablishedEvent => c.(status := Answered)
    case EndEvent => EndedCall(c, Arg(params, "duration", "0"), now)
    case HoldEvent => c.(status := OnHold)
    case ResumeEvent => c.(status := Answered)
    case TransferEvent => TransferredCall(c, TransferTarget(params, phoneType))
  }

  /**
   * `process_event`: the table after one callback. Only the canonical call
   * id can change, and it can be added only by a start event.
   */
  function Step(calls: CallTable, params: Params, now: int, stamp: string): (r: CallTable)
    requires WellFormed(params)
    ensures DeterminePhoneType(params) == UnknownType ==> r == calls
    ensures calls.Keys <= r.Keys
    ensures forall id :: id in r && id !in calls ==>
      && Canonicalise(params, stamp).Some?
      && id == Canonicalise(params, stamp).value.callId
      && EventKindOf(Canonicalise(params, stamp).value.event) == Some(StartEvent)
  {
    match Canonicalise(params, stamp)
    case None => calls
    case Some(d) => Dispatch(calls, d, params, now)
  }

  /** The table of calls, updated in place by one callback at a time. */
  class CallStore {
    var calls: CallTable

    ghost predicate Valid()
      reads this
    {
      KeyedById(calls)
    }

    constructor ()
      ensures Valid() && calls == map[]
    {
      calls := map[];
    }

    /** The `select ... where call_id = ...` query: the row under the key, if any. */
    method Fetch(callId: string) returns (existing: Option<Call>)
      requires Valid()
      ensures existing.Some? <==> callId in calls
      ensures existing.Some? ==> existing.value == calls[callId] && existing.value.callId == callId
    {
      existing := if callId in calls then Some(calls[callId]) else None;
    }

    method ProcessEvent(params: Params, now: int, stamp: string)
      requires Valid() && WellFormed(params)
      modifies this
      ensures Valid()
      ensures calls == Step(old(calls), params, now, stamp)
    {
      var phoneType := DeterminePhoneType(params);
      if phoneType == UnknownType {
        return;
      }
      var event := Arg(params, "event", UnknownText);
      var phoneMac, callId, remoteNumber;
      if phoneType == Yealink {
        phoneMac := Arg(params, "phone", UnknownText);
        callId := Arg(params, "callid", UnknownText);
        var number := Arg(params, "number", UnknownText);
        remoteNumber := Arg(params, "remotenumber", number);
      } else {
        phoneMac := Arg(params, "mac", UnknownText);
        callId := Arg(params, "callid", UnknownText);
        var number := Arg(params, "number", UnknownText);
        remoteNumber := number;
      }
      if callId == UnknownText {
        callId := phoneMac + "_" + stamp;
      }
      var existing := Fetch(callId);
      HandleEvent(event, existing, callId, phoneMac, remoteNumber, phoneType, params, now);
    }

    method HandleEvent(event: string, existing: Option<Call>, callId: string, phoneMac: string,
                       remoteNumber: string, phoneType: PhoneType, params: Params, now: int)
      requires Valid() && WellFormed(params)
      requires existing.Some? <==> callId in calls
      requires existing.Some? ==> existing.value == calls[callId]
      modifies this
      ensures Valid()
      ensures calls == Dispatch(old(calls), Descriptor(phoneType, event, callId, phoneMac, remoteNumber), params, now)
    {
      if event in ["call-start", "incoming-call"] {
        HandleCallStart(event, existing, callId, phoneMac, remoteNumber, now);
      } else if event in ["call-established", "call-connected"] {
        HandleCallEstablished(existing, callId);
      } else if event in ["call-end"] {
        HandleCallEnd(existing, callId, params, now);
      } else if event in ["hold", "call-hold"] {
        HandleCallHold(existing, callId);
      } else if event in ["resume", "call-resume"] {
        HandleCallResume(existing, callId);
      } else if event in ["transfer", "call-transfer", "attended-transfer"] {
        HandleCallTransfer(existing, callId, phoneType, params);
      }
    }

    method HandleCallStart(event: string, existing: Option<Call>, callId: string, phoneMac: string,
                           remoteNumber: string, now: int)
      requires Valid()
      requires existing.Some? <==> callId in calls
      modifies this
      ensures Valid()
      ensures existing.Some? ==> calls == old(calls)
      ensures existing.None? ==> calls == old(calls)[callId := StartedCall(event, callId, phoneMac, remoteNumber, now)]
    {
      if existing.None? {
        var direction := if event == "incoming-call" then Incoming else Outgoing;
        var fromNumber := if direction == Outgoing then phoneMac else remoteNumber;
        var toNumber := if direction == Outgoing then remoteNumber else phoneMac;
        var newCall := NewCall(callId, fromNumber, toNumber, phoneMac, direction, now);
        calls := calls[callId := newCall];
      }
    }

    method HandleCallEstablished(existing: Option<Call>, callId: string)
      requires Valid()
      requires existing.Some? ==> callId in calls && existing.value == calls[callId]
      modifies this
      ensures Valid()
      ensures existing.None? ==> calls == old(calls)
      ensures existing.Some? ==> calls == old(calls)[callId := existing.value.(status := Answered)]
    {
      if existing.Some? {
        var call := existing.value;
        call := call.(status := Answered);
        calls := calls[callId := call];
      }
    }

    method HandleCallEnd(existing: Option<Call>, callId: string, params: Params, now: int)
      requires Valid() && WellFormed(params)
      requires existing.Some? ==> callId in calls && existing.value == calls[callId]
      modifies this
      ensures Valid()
      ensures existing.None? ==> calls == old(calls)
      ensures existing.Some? ==>
        calls == old(calls)[callId := EndedCall(existing.value, Arg(params, "duration", "0"), now)]
    {
      if existing.Some? {
        var call := existing.value;
        var durationParam := Arg(params, "duration", "0");
        var duration;
        match ParseInt(durationParam) {
          case Some(n) =>
            duration := n;
          case None =>
            if call.started.Some? {
              duration := now - call.started.value;
            } else {
              duration := 0;
            }
        }
        var status := if call.status == Answered || duration > 5 then Successful else Unsuccessful;
        call := call.(finished := Some(now));
        call := call.(totalDuration := Some(duration));
        call := call.(status := status);
        calls := calls[callId := call];
      }
    }

    method HandleCallHold(existing: Option<Call>, callId: string)
      requires Valid()
      requires existing.Some? ==> callId in calls && existing.value == calls[callId]
      modifies this
      ensures Valid()
      ensures existing.None? ==> calls == old(calls)
      ensures existing.Some? ==> calls == old(calls)[callId := existing.value.(status := OnHold)]
    {
      if existing.Some? {
        var call := existing.value;
        call := call.(status := OnHold);
        calls := calls[callId := call];
      }
    }

    method HandleCallResume(existing: Option<Call>, callId: string)
      requires Valid()
      requires existing.Some? ==> callId in calls && existing.value == calls[callId]
      modifies this
      ensures Valid()
      ensures existing.None? ==> calls == old(calls)
      ensures existing.Some? ==> calls == old(calls)[callId := existing.value.(status := Answered)]
    {
      if existing.Some? {
        var call := existing.value;
        call := call.(status := Answered);
        calls := calls[callId := call];
      }
    }

    method HandleCallTransfer(existing: Option<Call>, callId: string, phoneType: PhoneType, params: Params)
      requires Valid() && WellFormed(params)
      requires existing.Some? ==> callId in calls && existing.value == calls[callId]
      modifies this
      ensures Valid()
      ensures existing.None? ==> calls == old(calls)
      ensures existing.Some? ==>
        calls == old(calls)[callId := TransferredCall(existing.value, TransferTarget(params, phoneType))]
    {
      if existing.Some? {
        var call := existing.value;
        var transferTo := Arg(params, "transfer_to", UnknownText);
        if phoneType == Cisco {
          transferTo := Arg(params, "transfer", UnknownText);
        }
        if call.transfers.None? {
          call := call.(transfers := Some([]));
        }
        call := call.(transfers := Some(call.transfers.value + [transferTo]));
        calls := calls[callId := call];
      }
    }
  }
}
