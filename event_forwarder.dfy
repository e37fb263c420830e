/** The cluster event forwarder: one Lambda invocation takes one event, adds the
    tenant and cluster identity to its detail, and republishes it as a single
    entry on the SaaS event bus. Configuration faults and failures the bus
    reports end the invocation normally; every other exception is re-raised. */
module EventForwarder {
  import opened PyValues

  /** `Source` of an event that has no `source` key. */
  const DefaultSource: string := "clusterra.forwarder"
  /** `DetailType` of an event that has no `detail-type` key. */
  const DefaultDetailType: string := "Unknown Event"

  /** The environment variables CLUSTER_ID, TENANT_ID, CLUSTER_NAME and SAAS_BUS_ARN,
      each possibly unset. */
  datatype Config = Config(
    clusterId: Option<string>,
    tenantId: Option<string>,
    clusterName: Option<string>,
    saasBusArn: Option<string>)

  /** `not saas_bus_arn` is false. Python's truthiness of the variable rejects
      both an unset ARN and an empty one. */
  predicate HasBus(config: Config)
    ensures HasBus(config) <==> config.saasBusArn.Some? && |config.saasBusArn.value| > 0
  {
    Truthy(EnvValue(config.saasBusArn))
  }

  /** An environment variable as the handler stores it: an unset one is None. */
  function EnvValue(o: Option<string>): Value {
    match o
    case Some(s) => Str(s)
    case None => Null
  }

  /** The identity the handler adds to every detail, in the order it adds it. */
  function Metadata(config: Config): seq<Item> {
    [Item("tenant_id", EnvValue(config.tenantId)),
     Item("cluster_id", EnvValue(config.clusterId)),
     Item("cluster_name", EnvValue(config.clusterName))]
  }

  predicate IsMetadataKey(k: string) {
    k == "tenant_id" || k == "cluster_id" || k == "cluster_name"
  }

  /** One entry of a put_events request. `detail` is the dict that json.dumps
      turns into the entry's `Detail` string; `time` is None when the entry has
      no `Time` key. */
  datatype RequestEntry = RequestEntry(
    source: Value,
    detailType: Value,
    detail: seq<Item>,
    eventBusName: string,
    resources: Value,
    time: Option<Value>)

  /** What `events_client.put_events(...)` did: raised, or returned a response. */
  datatype PutEventsResult = Threw(error: PyException) | Returned(response: Value)

  /** How an invocation ends. */
  datatype Outcome =
    | ConfigFault                      // bus ARN missing: logged, normal return
    | PartialFailure(response: Value)  // FailedEntryCount > 0: logged, normal return
    | Success(eventId: Value)          // logged with the entry's EventId
    | Raised(error: PyException)       // logged as critical and re-raised
  {
    /** The Lambda runtime sees the invocation succeed and does not retry it. */
    predicate ReturnsNormally() {
      !Raised?
    }
  }

  /** The detail the handler works on: the event's dict, an empty dict when the
      event has none, or any other value wrapped under `raw_detail` as its str(). */
  function CoerceDetail(event: seq<Item>): (r: seq<Item>)
    ensures Get(event, "detail") == None ==> r == []
    ensures Get(event, "detail").Some? && Get(event, "detail").value.Dict? ==> r == Get(event, "detail").value.items
    ensures Get(event, "detail").Some? && !Get(event, "detail").value.Dict? ==>
              Keys(r) == ["raw_detail"] && Get(r, "raw_detail").Some? && Get(r, "raw_detail").value.Str?
    ensures Get(event, "detail") == Some(Null) ==> r == [Item("raw_detail", Str("None"))]
    ensures forall s :: Get(event, "detail") == Some(Str(s)) ==> Get(r, "raw_detail") == Some(Str(s))
    ensures forall i :: Get(event, "detail") == Some(Int(i)) ==>
              Get(r, "raw_detail").Some? && DecimalValue(Get(r, "raw_detail").value.s) == Some(i)
  {
    match Get(event, "detail")
    case None => []
    case Some(Dict(d)) => d
    case Some(v) => [Item("raw_detail", Str(PyStr(v)))]
  }

  /** The three assignments `detail[key] = ...` of the identity. */
  function Enrich(detail: seq<Item>, config: Config): (r: seq<Item>)
    ensures Get(r, "tenant_id") == Some(EnvValue(config.tenantId))
    ensures Get(r, "cluster_id") == Some(EnvValue(config.clusterId))
    ensures Get(r, "cluster_name") == Some(EnvValue(config.clusterName))
    ensures forall k :: !IsMetadataKey(k) ==> Get(r, k) == Get(detail, k)
  {
    var withTenant := Put(detail, "tenant_id", EnvValue(config.tenantId));
    var withCluster := Put(withTenant, "cluster_id", EnvValue(config.clusterId));
    Put(withCluster, "cluster_name", EnvValue(config.clusterName))
  }

  /** Enrichment keeps the detail's keys in their order and appends the identity
      keys it lacks. */
  lemma EnrichKeepsOrder(detail: seq<Item>, config: Config)
    ensures var ks := Keys(Enrich(detail, config));
            |detail| <= |ks| <= |detail| + 3 && ks[..|detail|] == Keys(detail)
  {
    var withTenant := Put(detail, "tenant_id", EnvValue(config.tenantId));
    var withCluster := Put(withTenant, "cluster_id", EnvValue(config.clusterId));
    PutKeys(detail, "tenant_id", EnvValue(config.tenantId));
    PutKeys(withTenant, "cluster_id", EnvValue(config.clusterId));
    PutKeys(withCluster, "cluster_name", EnvValue(config.clusterName));
  }

  /** A detail without repeated keys stays so after enrichment. */
  lemma EnrichKeepsKeysDistinct(detail: seq<Item>, config: Config)
    requires DistinctKeys(detail)
    ensures DistinctKeys(Enrich(detail, config))
  {
    var withTenant := Put(detail, "tenant_id", EnvValue(config.tenantId));
    var withCluster := Put(withTenant, "cluster_id", EnvValue(config.clusterId));
    PutKeepsKeysDistinct(detail, "tenant_id", EnvValue(config.tenantId));
    PutKeepsKeysDistinct(withTenant, "cluster_id", EnvValue(config.clusterId));
    PutKeepsKeysDistinct(withCluster, "cluster_name", EnvValue(config.clusterName));
  }

  /** Enriching a detail that holds none of the identity keys appends them. */
  lemma EnrichAppends(detail: seq<Item>, config: Config)
    requires !HasKey(detail, "tenant_id") && !HasKey(detail, "cluster_id") && !HasKey(detail, "cluster_name")
    ensures Enrich(detail, config) == detail + Metadata(config)
  {
    var t, c, n := EnvValue(config.tenantId), EnvValue(config.clusterId), EnvValue(config.clusterName);
    var d1 := Put(detail, "tenant_id", t);
    var d2 := Put(d1, "cluster_id", c);
    var d3 := Put(d2, "cluster_name", n);
    PutAppends(detail, "tenant_id", t);
    PutAppends(d1, "cluster_id", c);
    PutAppends(d2, "cluster_name", n);
    assert d3 == detail + [Item("tenant_id", t), Item("cluster_id", c), Item("cluster_name", n)];
  }

  /** The detail after coercion and enrichment, case by case. */
  lemma EnrichedDetail(event: seq<Item>, config: Config)
    ensures match Get(event, "detail")
            case None => Enrich(CoerceDetail(event), config) == Metadata(config)
            case Some(Dict(m)) =>
              && Enrich(CoerceDetail(event), config) == Enrich(m, config)
              && (!HasKey(m, "tenant_id") && !HasKey(m, "cluster_id") && !HasKey(m, "cluster_name") ==>
                    Enrich(CoerceDetail(event), config) == m + Metadata(config))
            case Some(v) =>
              Enrich(CoerceDetail(event), config) == [Item("raw_detail", Str(PyStr(v)))] + Metadata(config)
  {
    match Get(event, "detail")
    case None =>
      EnrichAppends([], config);
    case Some(Dict(m)) =>
      if !HasKey(m, "tenant_id") && !HasKey(m, "cluster_id") && !HasKey(m, "cluster_name") {
        EnrichAppends(m, config);
      }
    case Some(v) =>
      var raw := Str(PyStr(v));
      GetSingle("raw_detail", raw, "tenant_id");
      GetSingle("raw_detail", raw, "cluster_id");
      GetSingle("raw_detail", raw, "cluster_name");
      EnrichAppends([Item("raw_detail", raw)], config);
  }

  /** The PutEvents entry for a dict event, once the bus ARN has been checked. */
  function BuildEntry(event: seq<Item>, busArn: string, config: Config): (e: RequestEntry)
    ensures HasKey(event, "source") ==> Get(event, "source") == Some(e.source)
    ensures !HasKey(event, "source") ==> e.source == Str(DefaultSource)
    ensures HasKey(event, "detail-type") ==> Get(event, "detail-type") == Some(e.detailType)
    ensures !HasKey(event, "detail-type") ==> e.detailType == Str(DefaultDetailType)
    ensures e.eventBusName == busArn
    ensures HasKey(event, "resources") ==> Get(event, "resources") == Some(e.resources)
    ensures !HasKey(event, "resources") ==> e.resources == List([])
    ensures e.time.Some? <==> HasKey(event, "time")
    ensures e.time.Some? ==> Get(event, "time") == e.time
    ensures match Get(event, "detail")
            case None => e.detail == Metadata(config)
            case Some(Dict(m)) => e.detail == Enrich(m, config)
            case Some(v) => e.detail == [Item("raw_detail", Str(PyStr(v)))] + Metadata(config)
  {
    var detail := CoerceDetail(event);
    EnrichedDetail(event, config);
    var entry := RequestEntry(
      GetOr(event, "source", Str(DefaultSource)),
      GetOr(event, "detail-type", Str(DefaultDetailType)),
      Enrich(detail, config),
      busArn,
      GetOr(event, "resources", List([])),
      None);
    if HasKey(event, "time") then entry.(time := Get(event, "time")) else entry
  }

  /** `response["FailedEntryCount"] > 0` */
  function FailedCount(response: Value): (r: Result<bool>)
    ensures !response.Dict? ==> r == Raise(TypeError)
    ensures response.Dict? && !HasKey(response.items, "FailedEntryCount") ==>
              r == Raise(KeyError(Str("FailedEntryCount")))
    ensures response.Dict? && HasKey(response.items, "FailedEntryCount") ==>
              var count := Get(response.items, "FailedEntryCount").value;
              && (r.Ok? <==> count.Int? || count.Bool?)
              && (r == Ok(true) <==> count == Bool(true) || (count.Int? && count.i > 0))
              && (r.Raise? ==> r.error == TypeError)
  {
    match Lookup(response, "FailedEntryCount")
    case Raise(e) => Raise(e)
    case Ok(count) => IsPositive(count)
  }

  /** `response["Entries"][0]["EventId"]` */
  function FirstEventId(response: Value): (r: Result<Value>)
    ensures !response.Dict? ==> r == Raise(TypeError)
    ensures response.Dict? && !HasKey(response.items, "Entries") ==> r == Raise(KeyError(Str("Entries")))
    ensures response.Dict? && HasKey(response.items, "Entries") ==>
              var entries := Get(response.items, "Entries").value;
              && (entries.List? && entries.elems == [] ==> r == Raise(IndexError))
              && (r.Ok? <==> entries.List? && |entries.elems| > 0 && entries.elems[0].Dict?
                             && HasKey(entries.elems[0].items, "EventId"))
              && (r.Ok? ==> Get(entries.elems[0].items, "EventId") == Some(r.value))
  {
    match Lookup(response, "Entries")
    case Raise(e) => Raise(e)
    case Ok(entries) =>
      match At(entries, 0)
      case Raise(e) => Raise(e)
      case Ok(first) => Lookup(first, "EventId")
  }

  /** The handler's last step, after the PutEvents call: an exception from the
      call, or from reading the response, is re-raised unchanged; a reported
      failure is logged and returns; otherwise the entry's EventId is logged. */
  function Interpret(result: PutEventsResult): (o: Outcome)
    ensures o != ConfigFault
    ensures result.Threw? ==> o == Raised(result.error)
    ensures o.PartialFailure? <==> result.Returned? && FailedCount(result.response) == Ok(true)
    ensures o.PartialFailure? ==> o.response == result.response
    ensures o.Success? <==> result.Returned? && FailedCount(result.response) == Ok(false) && FirstEventId(result.response).Ok?
    ensures o.Success? ==> FirstEventId(result.response) == Ok(o.eventId)
    ensures result.Returned? && FailedCount(result.response).Raise? ==>
              o == Raised(FailedCount(result.response).error)
    ensures result.Returned? && FailedCount(result.response) == Ok(false) && FirstEventId(result.response).Raise? ==>
              o == Raised(FirstEventId(result.response).error)
  {
    match result
    case Threw(e) => Raised(e)
    case Returned(response) =>
      match FailedCount(response)
      case Raise(e) => Raised(e)
      case Ok(failed) =>
        if failed then PartialFailure(response)
        else
          match FirstEventId(response)
          case Raise(e) => Raised(e)
          case Ok(id) => Success(id)
  }

  /** The whole handler as a function of the event, the configuration and how the
      bus answers a request. */
  function Forward(event: Value, config: Config, publish: seq<RequestEntry> -> PutEventsResult): (o: Outcome)
    ensures o == ConfigFault <==> !HasBus(config)
    ensures HasBus(config) && !event.Dict? ==> o == Raised(AttributeError("get"))
    ensures HasBus(config) && event.Dict? ==>
              o == Interpret(publish([BuildEntry(event.items, config.saasBusArn.value, config)]))
  {
    if !HasBus(config) then ConfigFault
    else if !event.Dict? then Raised(AttributeError("get"))
    else Interpret(publish([BuildEntry(event.items, config.saasBusArn.value, config)]))
  }

  /** The put_events requests one invocation makes. */
  function Requests(event: Value, config: Config): (rs: seq<seq<RequestEntry>>)
    ensures |rs| <= 1 && forall r :: r in rs ==> |r| == 1
    ensures |rs| == 1 <==> HasBus(config) && event.Dict?
    ensures |rs| == 1 ==> rs[0][0].eventBusName == config.saasBusArn.value
  {
    if HasBus(config) && event.Dict? then [[BuildEntry(event.items, config.saasBusArn.value, config)]]
    else []
  }

  /** The caller's event after the handler: when its detail is a dict, the handler
      enriched that very dict, so the caller sees the identity keys in it. */
  function EventAfter(event: Value, config: Config): (after: Value)
    ensures after.Dict? <==> event.Dict?
    ensures after.Dict? ==> Keys(after.items) == Keys(event.items)
    ensures after.Dict? ==> forall k :: k != "detail" ==> Get(after.items, k) == Get(event.items, k)
    ensures after != event ==> HasBus(config) && event.Dict? && Get(event.items, "detail").Some?
    ensures HasBus(config) && event.Dict? ==>
              match Get(event.items, "detail")
              case Some(Dict(m)) => Get(after.items, "detail") == Some(Dict(Enrich(m, config)))
              case _ => after == event
  {
    if HasBus(config) && event.Dict? then
      match Get(event.items, "detail")
      case Some(Dict(m)) =>
        PutKeys(event.items, "detail", Dict(Enrich(m, config)));
        Dict(Put(event.items, "detail", Dict(Enrich(m, config))))
      case _ => event
    else event
  }

  /** The module-level boto3 events client, built once and reused by every
      invocation the process serves. */
  class EventsClient {
    /** How the bus answers a request made after n earlier ones. */
    const respond: (nat, seq<RequestEntry>) -> PutEventsResult
    /** The put_events requests made through this client, oldest first. */
    var requests: seq<seq<RequestEntry>>

    constructor (respond: (nat, seq<RequestEntry>) -> PutEventsResult)
      ensures this.respond == respond && requests == []
    {
      this.respond := respond;
      requests := [];
    }

    /** How the bus answers the request made after n earlier ones. */
    function AnswerAt(n: nat): seq<RequestEntry> -> PutEventsResult {
      entries => respond(n, entries)
    }

    method PutEvents(entries: seq<RequestEntry>) returns (result: PutEventsResult)
      modifies this
      ensures requests == old(requests) + [entries]
      ensures result == respond(|old(requests)|, entries)
    {
      result := respond(|requests|, entries);
      requests := requests + [entries];
    }
  }

  /** The event object the Lambda runtime passes in; the handler may change the
      dict stored under its `detail` key. */
  class InboundEvent {
    var body: Value

    constructor (body: Value)
      ensures this.body == body
    {
      this.body := body;
    }
  }

  /** `handler(event, context)` */
  method Handle(event: InboundEvent, config: Config, client: EventsClient) returns (outcome: Outcome)
    modifies event, client
    ensures outcome == Forward(old(event.body), config, client.AnswerAt(|old(client.requests)|))
    ensures client.requests == old(client.requests) + Requests(old(event.body), config)
    ensures event.body == EventAfter(old(event.body), config)
  {
    // 1. Config
    if config.saasBusArn.None? || config.saasBusArn.value == "" {
      return ConfigFault;
    }
    var busArn := config.saasBusArn.value;

    // 2. Prepare event: `event.get` exists only on a dict
    if !event.body.Dict? {
      return Raised(AttributeError("get"));
    }
    var fields := event.body.items;
    var detail: seq<Item>;
    var shared := false;  // whether `detail` is the dict stored in the event
    match Get(fields, "detail") {
      case None =>
        detail := [];
      case Some(Dict(d)) =>
        detail := d;
        shared := true;
      case Some(v) =>
        detail := [Item("raw_detail", Str(PyStr(v)))];
    }
    detail := Put(detail, "tenant_id", EnvValue(config.tenantId));
    detail := Put(detail, "cluster_id", EnvValue(config.clusterId));
    detail := Put(detail, "cluster_name", EnvValue(config.clusterName));
    assert detail == Enrich(CoerceDetail(fields), config);
    if shared {
      event.body := Dict(Put(fields, "detail", Dict(detail)));
    }

    // 3. Forward
    var entry := RequestEntry(
      GetOr(fields, "source", Str(DefaultSource)),
      GetOr(fields, "detail-type", Str(DefaultDetailType)),
      detail,
      busArn,
      GetOr(fields, "resources", List([])),
      None);
    if HasKey(fields, "time") {
      entry := entry.(time := Get(fields, "time"));
    }
    assert entry == BuildEntry(fields, busArn, config);
    var result := client.PutEvents([entry]);
    outcome := Interpret(result);
  }

  // ---------------------------------------------------------------------------
  // The bus's answers as PutEvents documents them

  /** The response when the entry was accepted. */
  function AcceptedResponse(eventId: string): Value {
    Dict([Item("FailedEntryCount", Int(0)),
          Item("Entries", List([Dict([Item("EventId", Str(eventId))])]))])
  }

  /** The response when the entry was rejected. */
  function RejectedResponse(code: string, message: string): Value {
    Dict([Item("FailedEntryCount", Int(1)),
          Item("Entries", List([Dict([Item("ErrorCode", Str(code)), Item("ErrorMessage", Str(message))])]))])
  }

  lemma AcceptedIsSuccess(eventId: string)
    ensures Interpret(Returned(AcceptedResponse(eventId))) == Success(Str(eventId))
  {
    var items := AcceptedResponse(eventId).items;
    assert FailedCount(AcceptedResponse(eventId)) == Ok(false);
    assert items[1..] == [items[1]];
    assert Get(items, "Entries") == Get(items[1..], "Entries");
    assert Lookup(AcceptedResponse(eventId), "Entries") == Ok(items[1].val);
  }

  lemma RejectedIsPartialFailure(code: string, message: string)
    ensures Interpret(Returned(RejectedResponse(code, message))) == PartialFailure(RejectedResponse(code, message))
  {
  }

  // ---------------------------------------------------------------------------
  // Whole invocations

  /** The detail the bus receives is the dict the caller's event holds afterwards,
      when the event's detail was a dict. */
  lemma DetailIsShared(event: Value, config: Config)
    requires HasBus(config) && event.Dict? && Get(event.items, "detail").Some? && Get(event.items, "detail").value.Dict?
    ensures Get(EventAfter(event, config).items, "detail") == Some(Dict(Requests(event, config)[0][0].detail))
  {
  }

  /** Without a bus ARN the handler returns normally, sends nothing and leaves the
      event alone. */
  lemma NoBusNoRequest(event: Value, config: Config, publish: seq<RequestEntry> -> PutEventsResult)
    requires !HasBus(config)
    ensures Forward(event, config, publish) == ConfigFault && Forward(event, config, publish).ReturnsNormally()
    ensures Requests(event, config) == [] && EventAfter(event, config) == event
  {
  }

  /** An invocation on a dict event is retried by the runtime exactly when an
      exception escapes: from the call, or from reading the response. */
  lemma RaisedOnlyOnExceptions(event: Value, config: Config, publish: seq<RequestEntry> -> PutEventsResult)
    requires HasBus(config) && event.Dict?
    ensures var result := publish(Requests(event, config)[0]);
            && (result.Threw? ==> Forward(event, config, publish) == Raised(result.error))
            && (result.Returned? && FailedCount(result.response) == Ok(true) ==>
                  Forward(event, config, publish) == PartialFailure(result.response))
            && (Forward(event, config, publish).Raised? <==>
                  result.Threw? || FailedCount(result.response).Raise?
                  || (FailedCount(result.response) == Ok(false) && FirstEventId(result.response).Raise?))
  {
  }

  /** The scenario of an event with a dict detail and every variable set. */
  lemma CreatedScenario()
    ensures BuildEntry(
              [Item("source", Str("app.x")), Item("detail-type", Str("Created")),
               Item("detail", Dict([Item("id", Int(1))]))],
              "bus:abc",
              Config(Some("c1"), Some("t1"), Some("cn1"), Some("bus:abc")))
            == RequestEntry(
              Str("app.x"), Str("Created"),
              [Item("id", Int(1)), Item("tenant_id", Str("t1")),
               Item("cluster_id", Str("c1")), Item("cluster_name", Str("cn1"))],
              "bus:abc", List([]), None)
  {
    var event := [Item("source", Str("app.x")), Item("detail-type", Str("Created")),
                  Item("detail", Dict([Item("id", Int(1))]))];
    var config := Config(Some("c1"), Some("t1"), Some("cn1"), Some("bus:abc"));
    assert event[1..][1..][1..] == [];
    assert Get(event, "source") == Some(Str("app.x"));
    assert Get(event, "detail-type") == Some(Str("Created"));
    assert Get(event, "detail") == Some(Dict([Item("id", Int(1))]));
    assert Get(event, "resources") == None && Get(event, "time") == None;
    GetSingle("id", Int(1), "tenant_id");
    GetSingle("id", Int(1), "cluster_id");
    GetSingle("id", Int(1), "cluster_name");
    EnrichAppends([Item("id", Int(1))], config);
  }

  /** An event without source, detail-type or detail gets the fixed defaults and a
      detail holding only the identity. */
  lemma DefaultsScenario(config: Config)
    ensures BuildEntry([], "bus:abc", config)
            == RequestEntry(Str(DefaultSource), Str(DefaultDetailType), Metadata(config), "bus:abc", List([]), None)
  {
  }
}
