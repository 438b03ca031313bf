# Call-lifecycle event processor

A Dafny model of the core of `call_logger`: the service that receives the
"action URL" callbacks desk phones send during a call and folds them into
one row per call in the `calls` table.

- `helpers.dfy` (module `Helpers`): the parameter normaliser. `GetParamOr`
  and `GetParam` are `get_param` (first element of a list, default when the
  key is absent, "unknown" as the default default); `DeterminePhoneType`
  picks the Yealink or Cisco dialect. `ParamValue` is a single string or a
  list of strings.
- `call.dfy` (module `CallModel`): the `Call` row, its column defaults
  (`NewCall`) and `to_dict` (`ToDict`). Timestamps are whole seconds.
- `int_text.dfy` (module `IntText`): Python's `int(str)` on the `duration`
  parameter, simplified to an optional sign and ASCII digits, with the
  round trip from the integer's text.
- `call_processor.dfy` (module `CallProcessor`): `process_event`,
  `_handle_event` and the six handlers. The functions (`Canonicalise`,
  `EventKindOf`, `StartedCall`, `EndedCall`, `TransferredCall`, `Dispatch`,
  `Step`) say what one callback does to the table; the class `CallStore`
  holds the table as a `map` field and its methods do the work the way the
  source does (fetch the row, change it, write it back), each proved to
  end in the state `Step` describes and to keep the primary key.
- `event_properties.dfy` (module `EventProperties`): handler-by-handler
  consequences of one callback.
- `lifecycle.dfy` (module `Lifecycle`): sequences of callbacks (`Run`) and
  what they preserve, plus two worked scenarios.

Five behaviours of the code are worth stating outright: event names are
matched exactly and case-sensitively; nothing guards an ended call, so
hold, resume, established and a second end all still apply (a second end
overwrites `finished`, `total_duration` and the status); an absent
`duration` is read as "0", giving 0 rather than the elapsed time; and a
`callid` given literally as "unknown" is replaced by a synthesised id just
as an absent one is; and since that id is built from the timestamp, the
same start callback without `callid` delivered in two different seconds
creates two rows.

## Model

| member | source | states |
|---|---|---|
| Helpers.GetParamOr | app/utils/helpers.py:20-23 | a present scalar is returned as is; a present non-empty list gives its first element; a present empty list is returned as is, not replaced by the default; an absent key gives the default, itself reduced to its first element when it is a non-empty list; the result is never a non-empty list |
| Helpers.GetParam | app/utils/helpers.py:6-23 | with no default given, an absent key yields "unknown"; present values follow the first-of-list rule |
| Helpers.Arg | app/utils/helpers.py:20-23 | on a parameter map the HTTP layer can produce, `get_param` with a string default is the parameter's (first) string when present and the default otherwise |
| Helpers.DeterminePhoneType | app/utils/helpers.py:26-41 | Yealink iff `phone` is a key (whether or not `mac` is); Cisco iff `mac` is a key and `phone` is not; unknown iff neither is |
| CallModel.NewCall | app/models/call.py:15-24 | a new row starts now, is "in_progress", has an empty transfer list and no end time or duration, and keeps the given id, parties, phone and direction |
| CallModel.ToDict | app/models/call.py:29-42 | an unset start or end time becomes None and a set one its ISO text; direction and status become their column strings; every other field is copied |
| CallModel.ToDictInjective | app/models/call.py:29-42 | with an injective ISO formatter, two rows with equal dictionaries are equal: `to_dict` loses no field |
| IntText.ParseInt | app/services/call_processor.py:197-199 | `int(duration_param)` succeeds exactly on an optional sign followed by one or more ASCII digits (every other string falls to the `except` arm), with no limit on the number of digits; a leading minus gives a value at most 0, otherwise at least 0 |
| IntText.ParseIntRoundTrip | app/services/call_processor.py:196-198 | the model of `int()` reads the decimal text of any integer back as that integer, so a numeric `duration` of at most 4300 digits is read exactly |
| CallProcessor.EventKindOf | app/services/call_processor.py:89-141 | an event name selects a handler exactly when it is in that handler's list, and selects one at all exactly when it is among the twelve listed names |
| CallProcessor.Canonicalise | app/services/call_processor.py:22-45 | no descriptor iff the dialect is unknown; Yealink reads `phone` and `remotenumber` falling back to `number`, Cisco reads `mac` and `number`; a call id of "unknown" becomes `phone_mac + "_" + stamp`, any other is kept |
| CallProcessor.StartedCall | app/services/call_processor.py:153-169 | the started row is incoming iff the event is `incoming-call`; an outgoing call runs from the phone to the remote number, an incoming one from the remote number to the phone; status "in_progress", started now, no transfers |
| CallProcessor.ResolveDuration | app/services/call_processor.py:196-205 | a parseable `duration` wins; otherwise the seconds since `started`, or 0 when `started` is unset |
| CallProcessor.EndedCall | app/services/call_processor.py:194-212 | the ended row has `finished = now`, the resolved duration, and status successful iff it had been answered or the duration exceeds 5 (unsuccessful otherwise); no other field changes |
| CallProcessor.TransferTarget | app/services/call_processor.py:252-254 | the destination is the `transfer` parameter for Cisco and `transfer_to` otherwise, "unknown" when that parameter is absent |
| CallProcessor.TransferredCall | app/services/call_processor.py:258-263 | exactly one destination is appended after the earlier ones, a null list counting as empty; no other field changes |
| CallProcessor.Dispatch | app/services/call_processor.py:66-266 | `_handle_event` with its six handlers on the table: an unlisted event changes nothing; only the row under the call id can change; a key is added only by a start event for a missing call id, and an existing key set is kept; its full effect is pinned by `CallStore.HandleEvent` and the EventProperties lemmas |
| CallProcessor.Step | app/services/call_processor.py:14-63 | `process_event` on the table: an unknown dialect changes nothing, no row is removed, and a new key is the canonical call id of a start event; its full effect is pinned by `CallStore.ProcessEvent` and the EventProperties and Lifecycle lemmas |
| CallProcessor.CallStore.Fetch | app/services/call_processor.py:47-51 | the lookup finds a row iff the call id is a key, and then the row stored under it, whose own id is that call id |
| CallProcessor.CallStore.ProcessEvent | app/services/call_processor.py:14-63 | the table after a callback is `Step` of the table before, and the primary key still holds |
| CallProcessor.CallStore.HandleEvent | app/services/call_processor.py:66-141 | the first handler whose name list holds the event runs; an unlisted event leaves the table as it was |
| CallProcessor.CallStore.HandleCallStart | app/services/call_processor.py:144-172 | with no existing row, the table gains the started row under the call id; with one, it is unchanged |
| CallProcessor.CallStore.HandleCallEstablished | app/services/call_processor.py:175-184 | an existing row gets status "answered" and nothing else changes; without one the table is unchanged |
| CallProcessor.CallStore.HandleCallEnd | app/services/call_processor.py:187-215 | an existing row is replaced by its ended form, the duration read from `duration` with default "0"; without one the table is unchanged |
| CallProcessor.CallStore.HandleCallHold | app/services/call_processor.py:218-227 | an existing row gets status "on_hold" and nothing else changes; without one the table is unchanged |
| CallProcessor.CallStore.HandleCallResume | app/services/call_processor.py:230-239 | an existing row gets status "answered" and nothing else changes; without one the table is unchanged |
| CallProcessor.CallStore.HandleCallTransfer | app/services/call_processor.py:242-266 | an existing row gets the dialect's destination appended to its transfers; without one the table is unchanged |
| EventProperties.UnknownDialectIgnored | app/services/call_processor.py:23-27 | a callback with neither `phone` nor `mac` leaves the table unchanged |
| EventProperties.UnlistedEventIgnored | app/services/call_processor.py:90-141 | an event name outside the twelve listed ones leaves the table unchanged |
| EventProperties.EventNamesAreCaseSensitive | app/services/call_processor.py:90-134 | "Call-End", "CALL-START" and "Hold" select no handler, while "call-end" does |
| EventProperties.StartCreatesOneRecord | app/services/call_processor.py:153-170 | a start event for a new call id adds exactly that one key, leaves every other row alone, and the new row is "in_progress", started now, incoming iff `incoming-call`, with parties by direction |
| EventProperties.StartOnExistingIgnored | app/services/call_processor.py:153 | a start event for a call id already present leaves the table unchanged |
| EventProperties.StartIsIdempotent | app/services/call_processor.py:153-170 | a start callback that carries its call id, delivered twice, gives the same table as delivering it once, whatever the clock and timestamp of each delivery |
| EventProperties.StartWithoutCallIdTwiceAddsTwoRows | app/services/call_processor.py:44-45 | a start callback without `callid` delivered with two different timestamps creates two rows, `AA_s1` and `AA_s2` |
| EventProperties.MissingRecordNotCreated | app/services/call_processor.py:175-266 | any non-start event for a call id not present creates nothing and changes nothing |
| EventProperties.AnswerSetsAnswered | app/services/call_processor.py:175-239 | established, connected and resume events set status "answered" and change nothing else, whatever the prior status, an ended call included |
| EventProperties.HoldSetsOnHold | app/services/call_processor.py:224-225 | hold events set status "on_hold" and change nothing else, an ended call included |
| EventProperties.TransferAppendsOne | app/services/call_processor.py:250-263 | a transfer keeps the keys, appends exactly one destination at the end of that call's list, and changes no other field or row |
| EventProperties.EndResolves | app/services/call_processor.py:194-212 | an end event sets `finished = now`, `total_duration` to the resolved duration, and status successful iff previously answered or the duration exceeds 5 |
| EventProperties.ExplicitDurationWins | app/services/call_processor.py:196-198 | the text of any integer that fits the 64-bit INTEGER column of `total_duration`, given as `duration`, is the recorded duration, whatever the start time |
| EventProperties.AbsentDurationIsZero | app/services/call_processor.py:196-198 | without a `duration` parameter the duration is 0, not the elapsed time |
| EventProperties.EndSuccessRule | app/services/call_processor.py:208 | an answered call ends successful; an unanswered one ends unsuccessful at 5 seconds or less and successful above |
| EventProperties.SecondEndOverwrites | app/services/call_processor.py:210-212 | a second end overwrites the end time and the duration with its own |
| Lifecycle.StepPreserves | app/services/call_processor.py:144-266 | one callback deletes no row, never changes a row's id, parties, phone, start time or direction, only appends to transfers, and keeps the primary key and complete rows |
| Lifecycle.StepCreatesOnlyOnStart | app/services/call_processor.py:144-170 | a key that appears after a callback was created by a start event carrying that call id |
| Lifecycle.RunPreserves | app/services/call_processor.py:144-266 | over any sequence of callbacks the table only grows, rows keep their identity fields, transfer lists only extend, and the primary key holds |
| Lifecycle.RunFromEmptyRowsComplete | app/models/call.py:19-24 | from an empty table every row has a start time and a transfer list, so the null branches at lines 201 and 259 of the processor are never taken for its own rows |
| Lifecycle.IncomingCallScenario | app/services/call_processor.py:153-170 | an `incoming-call` for C1 from 555 on phone AA:BB creates exactly the row C1, incoming, from 555 to AA:BB, in progress |
| Lifecycle.CallEndScenario | app/services/call_processor.py:194-212 | ending C1 with `duration=12` records 12 seconds, the end time, and success |
| Lifecycle.NoDialectScenario | app/services/call_processor.py:23-27 | a start callback with neither `phone` nor `mac` leaves any table unchanged |

## Left out

- The HTTP layer (`app/api/endpoints/logs.py`, `app/main.py`, `app/api/deps.py`) is not part of this model; its one relevant fact is that it passes `dict(request.query_params)`, whose values are strings.
- WellFormed: the processor's members require that no parameter value is an empty list, because the only caller (app/api/endpoints/logs.py:30,40) passes string values. With an empty list the source would behave as follows, none of which is modelled: `event=[]` matches no handler; `duration=[]` makes `int([])` raise TypeError, caught at app/services/call_processor.py:199, so the elapsed time is used (the TypeError arm of that `except` is not modelled); `transfer_to=[]` or `transfer=[]` appends `[]` to the JSON transfer list; an empty list for `phone`, `mac`, `callid` or `number` ends up in the row or the lookup. Non-empty lists are handled as `get_param` does.
- The database session (`session.execute`, `session.add`, `session.commit`) is replaced by the `map` field of `CallStore`; store failures (I/O errors, constraint violations) are not modelled. In particular `total_duration` is an INTEGER column (app/models/call.py:23) on SQLite, so a parsed duration outside [-2^63, 2^63) makes the commit at app/services/call_processor.py:213 fail and the row stays as it was, whereas the model records the value.
- Concurrency: each callback is one atomic step; the lost-update races between concurrent requests for the same call id are not modelled.
- The clock: `now` is one integer in whole seconds per callback, although the source reads `datetime.now()` separately for the synthesised id, the elapsed time and `finished`; the insert-time default of `started` (app/models/call.py:19) is another read of the clock, modelled as the same `now`; `now` and `stamp` are independent inputs, and nothing ties the timestamp text to the clock value; the float `total_seconds()` and its truncation, and sub-second precision, are not modelled.
- The `strftime('%Y%m%d%H%M%S')` stamp is an opaque string input, and `isoformat` in `to_dict` is a function parameter.
- IntText.ParseInt: Python's `int()` also accepts surrounding whitespace, underscores between digits and non-ASCII digits; the model accepts only an optional sign and ASCII digits. CPython's `int()` also raises ValueError on text of more than 4300 digits (the default of `sys.get_int_max_str_digits`), which the source catches at app/services/call_processor.py:199 and answers with the elapsed time; the model parses text of any length.
- The `direction` and `status` columns are strings in the source; the model uses enumerations, as the processor writes no other values.
- `Call.__repr__`, the logger calls, `app/api/endpoints/reports.py`, `app/models/log.py`, `app/config.py`, `app/database.py` and `app/models/base.py` are not part of this model (debug text, side effects, queries run by the database library, settings).
