/** RedfishManager.base_query, synchronous path, over RedfishResponseCache used by one thread at a time. */
module BaseQuery {
  import opened Wrappers
  import opened JsonModel
  import opened SingleFlight

  /** What the transport gives back for a GET; body is None when it is not JSON. */
  datatype Reply =
    | NoReply(error: string)
    | Http(status: int, allow: Option<string>, body: Option<Json>)

  /** A GET is a function of the URL and of the one header base_query may set. */
  type Wire = (string, bool) -> Reply

  /** The request base_query has composed: url is the final URL, key the optional root selector. */
  datatype Request = Request(url: string, dataType: string, key: Option<string>, filename: Option<string>)

  type Answer = Result<Payload, string>

  /** load_response: only a 2xx reply with a JSON body loads. */
  function Load(wire: Wire, k: Key): Answer {
    match wire(k.url, k.dataType == "json")
    case NoReply(e) => Err(e)
    case Http(status, allow, body) =>
      if 200 <= status < 300 then
        if body.Some? then Ok(Payload(body.value, allow)) else Err("JSONDecodeError")
      else if status == 401 then Err("RedfishUnauthorized")
      else if status == 403 then Err("RedfishForbidden")
      else Err("ResourceNotFound")
  }

  function SelectPayload(payload: Json, key: Option<string>): Json {
    if payload.Obj? && key.Some? && key.value != "" && key.value in payload.fields
    then payload.fields[key.value]
    else payload
  }

  function Select(a: Answer, key: Option<string>): Answer {
    match a
    case Ok(p) => Ok(p.(data := SelectPayload(p.data, key)))
    case Err(_) => a
  }

  function KeyOf(req: Request): Key { Key(req.url, req.dataType) }

  /** base_query with no cache: the reference. */
  function Direct(wire: Wire, req: Request): Answer {
    Select(Load(wire, KeyOf(req)), req.key)
  }

  predicate Faithful(wire: Wire, values: map<Key, Payload>) {
    forall k <- values :: Load(wire, k) == Ok(values[k])
  }

  class ResponseCache {
    var values: map<Key, Payload>
    var inflight: set<Key>

    constructor ()
      ensures values == map[] && inflight == {}
    {
      values := map[];
      inflight := {};
    }

    /** One thread at a time: nobody else is loading, so the wait loop is not entered. */
    method GetOrLoad(key: Key, wire: Wire) returns (r: Answer, ran: bool)
      requires inflight == {}
      modifies this
      ensures inflight == {}
      ensures ran <==> key !in old(values)
      ensures key in old(values) ==> r == Ok(old(values)[key]) && values == old(values)
      ensures key !in old(values) ==> r == Load(wire, key)
      ensures key !in old(values) ==> values == if r.Ok? then old(values)[key := r.value] else old(values)
    {
      if key in values {
        return Ok(values[key]), false;
      }
      inflight := inflight + {key};
      ran := true;
      r := Load(wire, key);
      if r.Err? {
        inflight := inflight - {key};
        return;
      }
      values := values[key := r.value];
      inflight := inflight - {key};
    }
  }

  class Manager {
    var queryCounter: nat

    constructor ()
      ensures queryCounter == 0
    {
      queryCounter := 0;
    }

    /** load_response as a method: the counter moves when the transport answered at all. */
    method CountGet(wire: Wire, k: Key)
      modifies this
      ensures queryCounter == old(queryCounter) + Answered(wire, k)
    {
      if wire(k.url, k.dataType == "json").Http? {
        queryCounter := queryCounter + 1;
      }
    }

    /** base_query: a request that saves to a file bypasses the cache; the answer is the direct one either way. */
    method BaseQuery(req: Request, cache: ResponseCache?, wire: Wire) returns (r: Answer)
      requires cache != null ==> cache.inflight == {} && Faithful(wire, cache.values)
      modifies this, cache
      ensures r == Direct(wire, req)
      ensures cache == null ==> queryCounter == old(queryCounter) + Answered(wire, KeyOf(req))
      ensures cache != null ==> cache.inflight == {} && Faithful(wire, cache.values)
      ensures cache != null ==>
        cache.values == Remembered(wire, old(cache.values), req)
        && queryCounter == old(queryCounter) + Counted(wire, old(cache.values), req)
    {
      var k := KeyOf(req);
      var answer: Answer;
      if cache != null && req.filename.None? {
        var ran;
        answer, ran := cache.GetOrLoad(k, wire);
        if ran { CountGet(wire, k); }
      } else {
        answer := Load(wire, k);
        CountGet(wire, k);
      }
      r := Select(answer, req.key);
    }
  }

  function Answered(wire: Wire, k: Key): nat { if wire(k.url, k.dataType == "json").Http? then 1 else 0 }

  /** The cache after a request. */
  function Remembered(wire: Wire, values: map<Key, Payload>, req: Request): map<Key, Payload> {
    var k := KeyOf(req);
    if req.filename.Some? || k in values then values
    else match Load(wire, k)
      case Ok(p) => values[k := p]
      case Err(_) => values
  }

  /** What a request adds to query_counter. */
  function Counted(wire: Wire, values: map<Key, Payload>, req: Request): nat {
    if req.filename.None? && KeyOf(req) in values then 0 else Answered(wire, KeyOf(req))
  }

  /** What a sequence of requests adds to query_counter when they share a cache that starts out as values. */
  function TotalCounted(wire: Wire, values: map<Key, Payload>, reqs: seq<Request>): nat
    decreases |reqs|
  {
    if reqs == [] then 0
    else Counted(wire, values, reqs[0]) + TotalCounted(wire, Remembered(wire, values, reqs[0]), reqs[1..])
  }

  function FinalValues(wire: Wire, values: map<Key, Payload>, reqs: seq<Request>): map<Key, Payload>
    decreases |reqs|
  {
    if reqs == [] then values else FinalValues(wire, Remembered(wire, values, reqs[0]), reqs[1..])
  }

  /** A request the cache cannot save: it writes a file, or the server refuses it. */
  predicate Saveable(wire: Wire, req: Request) {
    req.filename.None? && Load(wire, KeyOf(req)).Ok?
  }

  function Unsaved(wire: Wire, reqs: seq<Request>): nat {
    if reqs == [] then 0
    else (if Saveable(wire, reqs[0]) then 0 else Answered(wire, KeyOf(reqs[0]))) + Unsaved(wire, reqs[1..])
  }

  function SavedKeys(wire: Wire, reqs: seq<Request>): set<Key> {
    set req | req in reqs && Saveable(wire, req) :: KeyOf(req)
  }

  lemma SavedKeysCons(wire: Wire, reqs: seq<Request>)
    requires reqs != []
    ensures SavedKeys(wire, reqs) ==
      (if Saveable(wire, reqs[0]) then {KeyOf(reqs[0])} else {}) + SavedKeys(wire, reqs[1..])
  {
    assert reqs == [reqs[0]] + reqs[1..];
  }

  lemma OneRequestKeys(wire: Wire, values: map<Key, Payload>, req: Request)
    requires Faithful(wire, values)
    ensures var next := Remembered(wire, values, req);
      && Faithful(wire, next)
      && next.Keys == values.Keys + if Saveable(wire, req) then {KeyOf(req)} else {}
  {
  }

  lemma OneRequestCounted(wire: Wire, values: map<Key, Payload>, req: Request)
    requires Faithful(wire, values)
    ensures Counted(wire, values, req) + |values| ==
      (if Saveable(wire, req) then 0 else Answered(wire, KeyOf(req))) + |Remembered(wire, values, req)|
  {
    OneRequestKeys(wire, values, req);
    var k, next := KeyOf(req), Remembered(wire, values, req);
    assert |next.Keys| == |next| && |values.Keys| == |values|;
    if Saveable(wire, req) && k !in values {
      assert next.Keys == values.Keys + {k};
    } else {
      assert next == values;
    }
  }

  lemma Unroll(wire: Wire, values: map<Key, Payload>, reqs: seq<Request>, next: map<Key, Payload>)
    requires reqs != [] && next == Remembered(wire, values, reqs[0])
    ensures TotalCounted(wire, values, reqs) == Counted(wire, values, reqs[0]) + TotalCounted(wire, next, reqs[1..])
    ensures Unsaved(wire, reqs) ==
      (if Saveable(wire, reqs[0]) then 0 else Answered(wire, KeyOf(reqs[0]))) + Unsaved(wire, reqs[1..])
    ensures FinalValues(wire, values, reqs) == FinalValues(wire, next, reqs[1..])
  {
  }

  lemma {:induction false} KeysRemembered(wire: Wire, values: map<Key, Payload>, reqs: seq<Request>)
    requires Faithful(wire, values)
    ensures FinalValues(wire, values, reqs).Keys == values.Keys + SavedKeys(wire, reqs)
    decreases |reqs|
  {
    if reqs != [] {
      var next := Remembered(wire, values, reqs[0]);
      OneRequestKeys(wire, values, reqs[0]);
      KeysRemembered(wire, next, reqs[1..]);
      SavedKeysCons(wire, reqs);
    }
  }

  lemma {:induction false} CountsRemembered(wire: Wire, values: map<Key, Payload>, reqs: seq<Request>)
    requires Faithful(wire, values)
    ensures TotalCounted(wire, values, reqs) + |values| == Unsaved(wire, reqs) + |FinalValues(wire, values, reqs)|
    decreases |reqs|
  {
    if reqs != [] {
      var next := Remembered(wire, values, reqs[0]);
      OneRequestKeys(wire, values, reqs[0]);
      OneRequestCounted(wire, values, reqs[0]);
      CountsRemembered(wire, next, reqs[1..]);
      Unroll(wire, values, reqs, next);
    }
  }

  /** Every answered GET is either for a request no cache can save, or the one load of a distinct cached key. */
  lemma GetsCounted(wire: Wire, values: map<Key, Payload>, reqs: seq<Request>)
    requires Faithful(wire, values)
    ensures TotalCounted(wire, values, reqs) + |values| == Unsaved(wire, reqs) + |values.Keys + SavedKeys(wire, reqs)|
  {
    KeysRemembered(wire, values, reqs);
    CountsRemembered(wire, values, reqs);
    var final := FinalValues(wire, values, reqs);
    assert |final| == |final.Keys|;
  }
}
