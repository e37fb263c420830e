# Event forwarder model

A Dafny model of the cluster-connect event forwarder, the AWS Lambda `handler` in
`modules/cluster-connect/scripts/event_forwarder.py`. The handler receives one EventBridge
event from a customer account. It reads the cluster identity and the SaaS bus ARN from the
environment, and it stops at once (returning `None`) when the ARN is unset or empty. It then
takes the event's `detail`. A detail that is not a dict is wrapped as
`{"raw_detail": str(detail)}`. The handler writes `tenant_id`, `cluster_id` and
`cluster_name` into the detail and builds one PutEvents entry. The entry keeps the original
`source`, `detail-type` and `resources`, falling back to fixed defaults when the event lacks
them, and carries `Time` only when the event has a `time` key. The handler
sends the entry to the SaaS bus and reads `FailedEntryCount`, and the first entry's
`EventId` on success. Every exception is re-raised, so the Lambda runtime sees the failure.

The model has two modules.

- `PyValues` (`python_values.dfy`) holds the Python semantics the handler depends on:
  - the values `json.loads` produces;
  - dicts kept in insertion order (a sequence of items) with `d.get(k, default)` and `d[k] = v`;
  - subscripting with its KeyError, TypeError and IndexError and its negative indices;
  - `>` on ints and bools;
  - `str()` / `repr()` of those values, with the quote choice and escaping of `repr` on strings.
- `EventForwarder` (`event_forwarder.dfy`) holds the handler:
  - the specification functions `CoerceDetail`, `Enrich`, `BuildEntry`, `Interpret`,
    `Forward`, `Requests` and `EventAfter`;
  - an `EventsClient` class that records every PutEvents request it receives;
  - an `InboundEvent` object for the caller's event, which the handler mutates in place when
    the detail is a dict (the published detail and the event's detail are the same object);
  - the imperative `Handle` method, proved to return `Forward`, to send exactly `Requests`
    and to leave the event as `EventAfter` says.

Outcomes of one invocation:
- `ConfigFault` is the early return without a bus ARN.
- `PartialFailure` is a normal return after the bus reported a failed entry.
- `Success` is a normal return with an event id.
- `Raised` is an exception that escapes to the runtime.

Where the code and its comments or design differ, the model follows the code:
- The comment at line 67 speaks of swallowing errors, but line 69 re-raises every exception.
  The model's outcome is `Raised`.
- The ARN test at line 26 is `not saas_bus_arn`, which also rejects an empty string, not only
  a missing variable (`HasBus`).
- The environment is read on every invocation (lines 21-24), not once per process. `Config`
  is therefore an input of each call.

## Model

| member | source | states |
|---|---|---|
| PyValues.GetOr | modules/cluster-connect/scripts/event_forwarder.py:45-49 | `d.get(k, default)` returns the stored value when the key is present and the default exactly when it is absent |
| PyValues.Put | modules/cluster-connect/scripts/event_forwarder.py:39-41 | after `d[k] = v`, reading `k` yields `v` and every other key reads as before |
| PyValues.PutKeys | modules/cluster-connect/scripts/event_forwarder.py:39-41 | assigning an existing key keeps the key order; a new key is appended last (insertion order) |
| PyValues.PutKeepsKeysDistinct | modules/cluster-connect/scripts/event_forwarder.py:39-41 | assignment never creates a duplicate key in a dict |
| PyValues.PutAppends | modules/cluster-connect/scripts/event_forwarder.py:39-41 | assigning a key the dict lacks appends exactly that item at the end |
| PyValues.HasKeyIsInKeys | modules/cluster-connect/scripts/event_forwarder.py:53 | `k in d` holds exactly when `k` is among the dict's keys |
| PyValues.GetSingle | modules/cluster-connect/scripts/event_forwarder.py:36 | the one-item dict `{"raw_detail": ...}` holds only that key |
| PyValues.Lookup | modules/cluster-connect/scripts/event_forwarder.py:54 | `v[k]` succeeds exactly on a dict holding `k` and yields its value; a missing key raises KeyError(k); a non-dict raises TypeError |
| PyValues.PyIndex | modules/cluster-connect/scripts/event_forwarder.py:63 | a Python index is valid exactly in `-n <= i < n` and selects position `i` or `i + n` |
| PyValues.At | modules/cluster-connect/scripts/event_forwarder.py:63 | `v[i]` succeeds exactly on a list or str with a valid index; a non-negative index yields element `i`, a negative one element `i + n` (a str yields a one-character str); out of range raises IndexError, a dict KeyError, and None, bool or int TypeError |
| PyValues.IsPositive | modules/cluster-connect/scripts/event_forwarder.py:60 | `v > 0` is defined exactly for ints and bools, comparing the int or taking the bool; other values raise TypeError |
| PyValues.DigitChar | modules/cluster-connect/scripts/event_forwarder.py:36 | each digit value has a digit character that reads back as that value |
| PyValues.Decimal | modules/cluster-connect/scripts/event_forwarder.py:36 | `str(i)` starts with a minus sign exactly when `i` is negative, and the rest is one or more digits |
| PyValues.Digits | modules/cluster-connect/scripts/event_forwarder.py:36 | the decimal form of a natural number is non-empty, all digits, without a leading zero |
| PyValues.DigitsRoundTrip | modules/cluster-connect/scripts/event_forwarder.py:36 | reading back the digits of `n` gives `n` |
| PyValues.DecimalRoundTrip | modules/cluster-connect/scripts/event_forwarder.py:36 | reading back `str(i)` of any integer, negatives included, gives `i` |
| PyValues.QuoteFor | modules/cluster-connect/scripts/event_forwarder.py:36 | `repr` of a string quotes with a single or a double quote |
| PyValues.Quote | modules/cluster-connect/scripts/event_forwarder.py:36 | `repr(s)` starts and ends with the chosen quote |
| PyValues.HexRoundTrip | modules/cluster-connect/scripts/event_forwarder.py:36 | a hex digit reads back as its value |
| PyValues.EscapeCharRoundTrip | modules/cluster-connect/scripts/event_forwarder.py:36 | each escaped character decodes back to itself, whatever follows it |
| PyValues.EscapeRoundTrip | modules/cluster-connect/scripts/event_forwarder.py:36 | the escaped body of `repr(s)` decodes back to `s` |
| PyValues.QuoteRoundTrip | modules/cluster-connect/scripts/event_forwarder.py:36 | `repr(s)` loses nothing: unquoting it gives `s` back |
| PyValues.Repr | modules/cluster-connect/scripts/event_forwarder.py:36 | `repr` of a str unquotes back to the str, of an int reads back as the int, of a list is bracketed by `[ ]` and of a dict by `{ }`; None and bools are their keywords |
| PyValues.PyStr | modules/cluster-connect/scripts/event_forwarder.py:36 | `str(v)` of a str is the str itself, of an int reads back as the int, of anything else is `repr(v)` |
| EventForwarder.HasBus | modules/cluster-connect/scripts/event_forwarder.py:26 | the handler proceeds past the config check exactly when SAAS_BUS_ARN is set and not empty, as Python's truthiness of the value decides |
| EventForwarder.CoerceDetail | modules/cluster-connect/scripts/event_forwarder.py:32-36 | a missing detail becomes an empty dict and a dict detail is used as it is; any other detail becomes a dict with the single key `raw_detail` holding a str: `None` for None, the str itself for a str, and a numeral reading back as the int for an int |
| EventForwarder.Enrich | modules/cluster-connect/scripts/event_forwarder.py:39-41 | the enriched detail holds the tenant, cluster id and cluster name (None when unset), and every other key reads as before |
| EventForwarder.EnrichKeepsOrder | modules/cluster-connect/scripts/event_forwarder.py:39-41 | enrichment keeps the detail's own keys first, in order, and adds at most three keys |
| EventForwarder.EnrichKeepsKeysDistinct | modules/cluster-connect/scripts/event_forwarder.py:39-41 | enrichment never duplicates a key |
| EventForwarder.EnrichAppends | modules/cluster-connect/scripts/event_forwarder.py:39-41 | a detail without the three keys becomes the detail followed by tenant_id, cluster_id, cluster_name in that order |
| EventForwarder.EnrichedDetail | modules/cluster-connect/scripts/event_forwarder.py:32-41 | a missing detail becomes only the identity; a dict detail is enriched, and one without the identity keys gets them appended after its own; any other detail becomes `raw_detail` = `str(detail)` followed by the identity |
| EventForwarder.BuildEntry | modules/cluster-connect/scripts/event_forwarder.py:44-54 | the entry keeps the event's source, detail-type and resources or takes the defaults, targets the bus ARN, carries Time exactly when the event has `time`, and carries the enriched detail |
| EventForwarder.FailedCount | modules/cluster-connect/scripts/event_forwarder.py:60 | `response["FailedEntryCount"] > 0`: TypeError for a non-dict response, KeyError for a missing key, true exactly for a positive int or True, TypeError for a count that is neither int nor bool |
| EventForwarder.FirstEventId | modules/cluster-connect/scripts/event_forwarder.py:63 | `response["Entries"][0]["EventId"]` succeeds exactly when Entries is a non-empty list whose first element is a dict holding EventId, and yields that value; a non-dict response raises TypeError, a missing Entries KeyError, an empty list IndexError |
| EventForwarder.Interpret | modules/cluster-connect/scripts/event_forwarder.py:58-69 | a raised call is re-raised; a positive FailedEntryCount is a partial failure; a zero count with a readable first EventId is success; an error reading FailedEntryCount is re-raised, and only after a zero count is an error reading the EventId re-raised |
| EventForwarder.Forward | modules/cluster-connect/scripts/event_forwarder.py:19-69 | the invocation is a config fault exactly without a bus ARN; a non-dict event raises AttributeError; otherwise the outcome is the interpretation of the bus's answer to the one built entry |
| EventForwarder.Requests | modules/cluster-connect/scripts/event_forwarder.py:26-28 | at most one PutEvents request, holding exactly one entry, made exactly when a bus is set and the event is a dict, and addressed to that bus |
| EventForwarder.EventAfter | modules/cluster-connect/scripts/event_forwarder.py:32-41 | the caller's event keeps its keys and every other field; only a dict detail changes, and it becomes the enriched detail |
| EventForwarder.EventsClient.PutEvents | modules/cluster-connect/scripts/event_forwarder.py:58 | each call is appended to the client's request log and answered by the bus for that call |
| EventForwarder.Handle | modules/cluster-connect/scripts/event_forwarder.py:9-69 | the handler's outcome is `Forward`, the requests sent are exactly `Requests`, and the event afterwards is `EventAfter` |
| EventForwarder.AcceptedIsSuccess | modules/cluster-connect/scripts/event_forwarder.py:60-63 | a response with FailedEntryCount 0 and an EventId is a success carrying that id |
| EventForwarder.RejectedIsPartialFailure | modules/cluster-connect/scripts/event_forwarder.py:60-61 | a response with FailedEntryCount 1 is a partial failure and returns normally |
| EventForwarder.DetailIsShared | modules/cluster-connect/scripts/event_forwarder.py:32-47 | when the detail is a dict, the caller's event afterwards holds the very detail that was published |
| EventForwarder.NoBusNoRequest | modules/cluster-connect/scripts/event_forwarder.py:26-28 | without a bus ARN the handler returns normally, sends nothing and leaves the event unchanged |
| EventForwarder.RaisedOnlyOnExceptions | modules/cluster-connect/scripts/event_forwarder.py:58-69 | an exception from PutEvents escapes unchanged, a reported failed entry returns normally, and the invocation raises exactly when the call or a read of the response raises |
| EventForwarder.CreatedScenario | modules/cluster-connect/scripts/event_forwarder.py:32-54 | an event with a dict detail yields an entry with its source and detail-type, the identity appended to the detail, no resources and no Time |
| EventForwarder.DefaultsScenario | modules/cluster-connect/scripts/event_forwarder.py:44-50 | an empty event yields the default source and detail-type, an empty resource list, and a detail holding only the identity |

## Left out

- `json.dumps(detail)` at line 47: the entry carries the detail dict itself (its items in
  insertion order), not its JSON text. JSON encoding is not modelled.
- The `print` logging at lines 27, 56, 61, 63 and 66: log output has no effect on the outcome.
- The boto3 client construction at line 6 and the network behind `put_events`: the bus is
  a function from call index and entries to a response or a raised SDK error.
- The `context` argument, Lambda's retry policy and timeouts: only whether an exception
  escapes is modelled.
- `os.environ`: the four variables are the `Config` input, each `None` when unset.
- Floating-point values in events: `Value` has no float case. `str()` of a float is not modelled.
- PyValues.Repr: characters above U+00FF are treated as printable. Python's `repr` escapes
  some of them as `\u`/`\U` sequences.
- PyValues.Decimal: Python's limit on the number of digits of an int-to-str conversion is
  not modelled.
- The exception text of AttributeError: it is modelled by the attribute name only.
