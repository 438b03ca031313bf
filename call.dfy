/**
 * The `Call` record of app/models/call.py: one row per call, keyed by its
 * call id, with the creation defaults and the `to_dict` view.
 * Timestamps are whole seconds.
 */
module CallModel {
  import opened Wrappers

  datatype Direction = Incoming | Outgoing

  datatype Status = InProgress | Answered | OnHold | Successful | Unsuccessful

  /** The string the `direction` column holds. */
  function DirectionName(d: Direction): string
  {
    match d
    case Incoming => "incoming"
    case Outgoing => "outgoing"
  }

  /** The string the `status` column holds. */
  function StatusName(s: Status): string
  {
    match s
    case InProgress => "in_progress"
    case Answered => "answered"
    case OnHold => "on_hold"
    case Successful => "successful"
    case Unsuccessful => "unsuccessful"
  }

  /**
   * One row of the `calls` table. `started`, `finished`, `totalDuration`
   * and `transfers` are nullable columns, hence options.
   */
  datatype Call = Call(
    callId: string,
    fromNumber: string,
    toNumber: string,
    phoneMac: string,
    started: Option<int>,
    finished: Option<int>,
    direction: Direction,
    status: Status,
    totalDuration: Option<int>,
    transfers: Option<seq<string>>)

  /** The store: rows by primary key. */
  type CallTable = map<string, Call>

  /** The primary-key constraint: every row sits under its own call id. */
  ghost predicate KeyedById(calls: CallTable)
  {
    forall id :: id in calls ==> calls[id].callId == id
  }

  /** The transfer history, with a null column read as no transfers. */
  function TransferList(c: Call): seq<string>
  {
    if c.transfers.Some? then c.transfers.value else []
  }

  /**
   * A row built with the column defaults: started at `now`, status
   * "in_progress", an empty transfer list, no end time and no duration.
   */
  function NewCall(callId: string, fromNumber: string, toNumber: string, phoneMac: string,
                   direction: Direction, now: int): (c: Call)
    ensures c.callId == callId && c.phoneMac == phoneMac && c.direction == direction
    ensures c.fromNumber == fromNumber && c.toNumber == toNumber
    ensures c.started == Some(now)
    ensures c.finished.None? && c.totalDuration.None?
    ensures c.status == InProgress
    ensures c.transfers == Some([]) && TransferList(c) == []
  {
    Call(callId, fromNumber, toNumber, phoneMac, Some(now), None, direction, InProgress, None, Some([]))
  }

  /** The dictionary `to_dict` returns, field by field. */
  datatype CallDict = CallDict(
    callId: string,
    fromNumber: string,
    toNumber: string,
    phoneMac: string,
    started: Option<string>,
    finished: Option<string>,
    direction: string,
    status: string,
    totalDuration: Option<int>,
    transfers: Option<seq<string>>)

  /**
   * `to_dict`: timestamps become their ISO text (`isoformat` stands for
   * the formatter) or None; every other field is copied.
   */
  function ToDict(c: Call, isoformat: int -> string): (d: CallDict)
    ensures d.started.None? <==> c.started.None?
    ensures d.finished.None? <==> c.finished.None?
    ensures c.started.Some? ==> d.started == Some(isoformat(c.started.value))
    ensures c.finished.Some? ==> d.finished == Some(isoformat(c.finished.value))
    ensures d.callId == c.callId && d.fromNumber == c.fromNumber && d.toNumber == c.toNumber
    ensures d.phoneMac == c.phoneMac && d.totalDuration == c.totalDuration && d.transfers == c.transfers
    ensures d.direction == DirectionName(c.direction) && d.status == StatusName(c.status)
  {
    CallDict(c.callId, c.fromNumber, c.toNumber, c.phoneMac,
             if c.started.Some? then Some(isoformat(c.started.value)) else None,
             if c.finished.Some? then Some(isoformat(c.finished.value)) else None,
             DirectionName(c.direction), StatusName(c.status), c.totalDuration, c.transfers)
  }

  ghost predicate Injective(f: int -> string)
  {
    forall x, y :: f(x) == f(y) ==> x == y
  }

  /** With an injective formatter, `to_dict` loses nothing: the row can be read back from it. */
  lemma ToDictInjective(a: Call, b: Call, isoformat: int -> string)
    requires Injective(isoformat)
    requires ToDict(a, isoformat) == ToDict(b, isoformat)
    ensures a == b
  {
    var da, db := ToDict(a, isoformat), ToDict(b, isoformat);
    if a.started.Some? {
      assert isoformat(a.started.value) == isoformat(b.started.value) by {
        assert da.started == db.started;
      }
      assert a.started.value == b.started.value;
    }
    if a.finished.Some? {
      assert isoformat(a.finished.value) == isoformat(b.finished.value) by {
        assert da.finished == db.finished;
      }
      assert a.finished.value == b.finished.value;
    }
    assert a.direction == b.direction;
    assert a.status == b.status;
  }
}
