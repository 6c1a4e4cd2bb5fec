/**
 * The command that creates a relationship on the server. It turns a snapshot of the
 * relationship into a REST request (a path, the method and a body map), in one of two
 * shapes: an ordinary creation under the start node, or a creation through the
 * unique-relationship index named after the relationship's type. It then reads the
 * server's reply, assigning the new id to the relationship and caching it.
 */
module CreateRelationshipCommand {
  import opened Wrappers
  import opened PhpValues
  import opened Relationships

  /** The exceptions the command throws. */
  datatype CommandError =
    | NoStartNode
    | NoEndNode
    | NoType
      // building the body reads the start node's id even when there is no start node
    | StartNodeIsNull
    | RequestFailed(code: int, headers: map<string, string>, data: ResponseData)

  function Message(e: CommandError): string {
    match e
    case NoStartNode => "No relationship start node specified"
    case NoEndNode => "No relationship end node specified"
    case NoType => "No relationship type specified"
    case StartNodeIsNull => "Call to a member function getId() on null"
    case RequestFailed(_, _, _) => "Unable to create relationship"
  }

  /** A value in the request body. */
  datatype BodyValue = Str(str: string) | Null | Properties(props: map<string, string>)

  type Body = map<string, BodyValue>

  datatype Request = Request(verb: string, path: string, body: Body)

  /** The decoded reply body: the entries of its top-level object, each an object of strings. */
  type ResponseData = map<string, map<string, string>>

  predicate HasId(n: Option<NodeView>) {
    n.Some? && n.value.id.Some?
  }

  /** The absolute URI of a node, as embedded in a request body. */
  function NodeUri(endpoint: string, id: Option<nat>): string {
    endpoint + "/node/" + IdText(id)
  }

  /** Distinct node ids give distinct node URIs under the same endpoint. */
  lemma NodeUriInjective(endpoint: string, m: nat, n: nat)
    ensures NodeUri(endpoint, Some(m)) == NodeUri(endpoint, Some(n)) ==> m == n
  {
    var u, v := NodeUri(endpoint, Some(m)), NodeUri(endpoint, Some(n));
    var k := |endpoint + "/node/"|;
    if u == v {
      assert u[k..] == DecimalString(m);
      assert v[k..] == DecimalString(n);
      DecimalStringInjective(m, n);
    }
  }

  const NODE_PREFIX: string := "/node/"
  const RELATIONSHIPS_SUFFIX: string := "/relationships"
  const INDEX_PREFIX: string := "/index/relationship/"
  const UNIQUENESS_QUERY: string := "?uniqueness="

  /** `getPath`: checks the start node, then picks the shape from `isUnique`. */
  function Path(r: RelView): (p: Result<string, CommandError>)
    ensures p.Failure? <==> !HasId(r.start)
    ensures p.Failure? ==> p.error == NoStartNode
    ensures p.Failure? ==> Message(p.error) == "No relationship start node specified"
  {
    if !HasId(r.start) then Failure(NoStartNode)
    else if IsUnique(r.config) then
      Success(INDEX_PREFIX + Text(r.relType) + UNIQUENESS_QUERY + r.config.action)
    else
      Success(NODE_PREFIX + DecimalString(r.start.value.id.value) + RELATIONSHIPS_SUFFIX)
  }

  /** `getMethod`. */
  function Method(): (m: string)
    ensures m == "post"
  {
    "post"
  }

  /** The keys the body holds besides the shape-specific ones. */
  function DataKeys(properties: map<string, string>): set<string> {
    if |properties| > 0 then {"data"} else {}
  }

  /** The body of a creation through the unique index. */
  function IndexBody(relType: string, key: string, value: BodyValue, startUri: string, endUri: string): (b: Body)
    ensures b.Keys == {"type", "key", "value", "start", "end"}
    ensures b["type"] == Str(relType) && b["key"] == Str(key) && b["value"] == value
    ensures b["start"] == Str(startUri) && b["end"] == Str(endUri)
  {
    map["type" := Str(relType), "key" := Str(key), "value" := value, "start" := Str(startUri), "end" := Str(endUri)]
  }

  /** The body of an ordinary creation. */
  function OrdinaryBody(relType: string, endUri: string): (b: Body)
    ensures b.Keys == {"type", "to"}
    ensures b["type"] == Str(relType) && b["to"] == Str(endUri)
  {
    map["type" := Str(relType), "to" := Str(endUri)]
  }

  /** Adds the properties under `data` when there are any; empty properties are falsy in PHP. */
  function WithProperties(b: Body, properties: map<string, string>): (r: Body)
    requires "data" !in b
    ensures r.Keys == b.Keys + DataKeys(properties)
    ensures forall k :: k in b ==> r[k] == b[k]
    ensures "data" in r ==> r["data"] == Properties(properties)
  {
    if |properties| > 0 then b["data" := Properties(properties)] else b
  }

  /**
   * `getData`: checks the end node, then the type, then builds the body. The shape of the
   * body is chosen by a loose comparison of the unique key with null, not by `isUnique`.
   */
  function Data(r: RelView, endpoint: string): (b: Result<Body, CommandError>)
    ensures !HasId(r.end) ==> b == Failure(NoEndNode)
    ensures HasId(r.end) && Falsy(r.relType) ==> b == Failure(NoType)
    ensures HasId(r.end) && !Falsy(r.relType) && r.start.None? ==> b == Failure(StartNodeIsNull)
    ensures b.Success? <==> HasId(r.end) && !Falsy(r.relType) && r.start.Some?
    ensures b == Failure(NoEndNode) ==> Message(b.error) == "No relationship end node specified"
    ensures b == Failure(NoType) ==> Message(b.error) == "No relationship type specified"
    ensures b.Success? ==>
      && "type" in b.value && b.value["type"] == Str(r.relType.value)
      && ("data" in b.value <==> |r.properties| > 0)
      && ("data" in b.value ==> b.value["data"] == Properties(r.properties))
    ensures b.Success? && !LooselyNull(KeyOf(r.config)) ==>
      && b.value.Keys == {"type", "key", "value", "start", "end"} + DataKeys(r.properties)
      && b.value["key"] == Str(KeyOf(r.config).value)
      && b.value["value"] == (if ValueOf(r.config).Some? then Str(ValueOf(r.config).value) else Null)
      && b.value["start"] == Str(NodeUri(endpoint, r.start.value.id))
      && b.value["end"] == Str(NodeUri(endpoint, r.end.value.id))
    ensures b.Success? && LooselyNull(KeyOf(r.config)) ==>
      && b.value.Keys == {"type", "to"} + DataKeys(r.properties)
      && b.value["to"] == Str(NodeUri(endpoint, r.end.value.id))
  {
    if !HasId(r.end) then Failure(NoEndNode)
    else if Falsy(r.relType) then Failure(NoType)
    else if r.start.None? then Failure(StartNodeIsNull)
    else
      var startUri := NodeUri(endpoint, r.start.value.id);
      var endUri := NodeUri(endpoint, r.end.value.id);
      var value := if ValueOf(r.config).Some? then Str(ValueOf(r.config).value) else Null;
      var shaped :=
        if !LooselyNull(KeyOf(r.config)) then
          IndexBody(r.relType.value, KeyOf(r.config).value, value, startUri, endUri)
        else
          OrdinaryBody(r.relType.value, endUri);
      Success(WithProperties(shaped, r.properties))
  }

  /**
   * The request the command sends: the path is computed before the body, so a missing
   * start node is reported first, then a missing end node, then a missing type.
   */
  function BuildRequest(r: RelView, endpoint: string): (q: Result<Request, CommandError>)
    ensures !HasId(r.start) ==> q == Failure(NoStartNode)
    ensures HasId(r.start) && !HasId(r.end) ==> q == Failure(NoEndNode)
    ensures HasId(r.start) && HasId(r.end) && Falsy(r.relType) ==> q == Failure(NoType)
    ensures q.Success? <==> HasId(r.start) && HasId(r.end) && !Falsy(r.relType)
    ensures q.Success? ==>
      && q.value.verb == "post"
      && Path(r) == Success(q.value.path)
      && Data(r, endpoint) == Success(q.value.body)
  {
    match Path(r)
    case Failure(e) => Failure(e)
    case Success(path) =>
      match Data(r, endpoint)
      case Failure(e) => Failure(e)
      case Success(body) => Success(Request(Method(), path, body))
  }

  /** What a request path addresses, read back from the path alone. */
  datatype PathShape =
    | OrdinaryPath(startId: nat)
    | IndexPath(index: string, action: string)
    | OtherPath

  predicate IsOrdinaryPath(p: string) {
    && |p| > |NODE_PREFIX| + |RELATIONSHIPS_SUFFIX|
    && p[..|NODE_PREFIX|] == NODE_PREFIX
    && p[|p| - |RELATIONSHIPS_SUFFIX|..] == RELATIONSHIPS_SUFFIX
    && AllDigits(p[|NODE_PREFIX|..|p| - |RELATIONSHIPS_SUFFIX|])
    // a node id is written without leading zeros
    && (p[|NODE_PREFIX|] == '0' ==> |p| == |NODE_PREFIX| + 1 + |RELATIONSHIPS_SUFFIX|)
  }

  predicate IsIndexPath(p: string, action: string) {
    && |p| >= |INDEX_PREFIX| + |UNIQUENESS_QUERY + action|
    && p[..|INDEX_PREFIX|] == INDEX_PREFIX
    && p[|p| - |UNIQUENESS_QUERY + action|..] == UNIQUENESS_QUERY + action
  }

  /** The index name in an index path, between the prefix and the query. */
  function IndexName(p: string, action: string): string
    requires IsIndexPath(p, action)
  {
    p[|INDEX_PREFIX|..|p| - |UNIQUENESS_QUERY + action|]
  }

  lemma OrdinaryPathRebuilt(p: string)
    requires IsOrdinaryPath(p)
    ensures p == NODE_PREFIX + DecimalString(ParseDecimal(p[|NODE_PREFIX|..|p| - |RELATIONSHIPS_SUFFIX|])) + RELATIONSHIPS_SUFFIX
  {
    var d := p[|NODE_PREFIX|..|p| - |RELATIONSHIPS_SUFFIX|];
    assert d[0] == p[|NODE_PREFIX|];
    DecimalStringOfParse(d);
    assert p == p[..|NODE_PREFIX|] + d + p[|p| - |RELATIONSHIPS_SUFFIX|..];
  }

  lemma IndexPathRebuilt(p: string, action: string)
    requires IsIndexPath(p, action)
    ensures p == INDEX_PREFIX + IndexName(p, action) + UNIQUENESS_QUERY + action
  {
    var q := UNIQUENESS_QUERY + action;
    assert p == p[..|INDEX_PREFIX|] + IndexName(p, action) + p[|p| - |q|..];
  }

  /**
   * Parses a request path. Every path it accepts is exactly the text `Path` writes for what
   * it returns, so a path names one start node, or one index and one action.
   */
  function ClassifyPath(p: string): (c: PathShape)
    ensures c.OrdinaryPath? ==> p == NODE_PREFIX + DecimalString(c.startId) + RELATIONSHIPS_SUFFIX
    ensures c.IndexPath? ==>
      IsUniqueAction(c.action) && p == INDEX_PREFIX + c.index + UNIQUENESS_QUERY + c.action
  {
    if IsOrdinaryPath(p) then
      OrdinaryPathRebuilt(p);
      OrdinaryPath(ParseDecimal(p[|NODE_PREFIX|..|p| - |RELATIONSHIPS_SUFFIX|]))
    else if IsIndexPath(p, UNIQUE_GET_CREATE) then
      IndexPathRebuilt(p, UNIQUE_GET_CREATE);
      IndexPath(IndexName(p, UNIQUE_GET_CREATE), UNIQUE_GET_CREATE)
    else if IsIndexPath(p, UNIQUE_CREATE_FAIL) then
      IndexPathRebuilt(p, UNIQUE_CREATE_FAIL);
      IndexPath(IndexName(p, UNIQUE_CREATE_FAIL), UNIQUE_CREATE_FAIL)
    else OtherPath
  }

  lemma OrdinaryPathParses(id: nat)
    ensures ClassifyPath(NODE_PREFIX + DecimalString(id) + RELATIONSHIPS_SUFFIX) == OrdinaryPath(id)
  {
    var d := DecimalString(id);
    var p := NODE_PREFIX + d + RELATIONSHIPS_SUFFIX;
    assert p[..|NODE_PREFIX|] == NODE_PREFIX;
    assert p[|p| - |RELATIONSHIPS_SUFFIX|..] == RELATIONSHIPS_SUFFIX;
    assert p[|NODE_PREFIX|..|p| - |RELATIONSHIPS_SUFFIX|] == d;
    assert p[|NODE_PREFIX|] == d[0];
    ParseDecimalString(id);
  }

  lemma IndexPathNotOrdinary(t: string, query: string)
    ensures !IsOrdinaryPath(INDEX_PREFIX + t + query)
  {
    var p := INDEX_PREFIX + t + query;
    assert p[1] == 'i';
    if |p| > |NODE_PREFIX| + |RELATIONSHIPS_SUFFIX| {
      assert p[..|NODE_PREFIX|][1] != NODE_PREFIX[1];
    }
  }

  lemma IndexPathHasParts(t: string, action: string)
    ensures IsIndexPath(INDEX_PREFIX + t + (UNIQUENESS_QUERY + action), action)
    ensures IndexName(INDEX_PREFIX + t + (UNIQUENESS_QUERY + action), action) == t
  {
  }

  /** The two queries end in different letters, so neither action is mistaken for the other. */
  lemma CreateFailIsNotGetCreate(t: string)
    ensures !IsIndexPath(INDEX_PREFIX + t + (UNIQUENESS_QUERY + UNIQUE_CREATE_FAIL), UNIQUE_GET_CREATE)
  {
    var p := INDEX_PREFIX + t + (UNIQUENESS_QUERY + UNIQUE_CREATE_FAIL);
    var other := UNIQUENESS_QUERY + UNIQUE_GET_CREATE;
    assert p[|p| - 1] == 'l';
    if |p| >= |INDEX_PREFIX| + |other| {
      assert p[|p| - |other|..][|other| - 1] != other[|other| - 1];
    }
  }

  lemma IndexPathParses(t: string, action: string)
    requires IsUniqueAction(action)
    ensures ClassifyPath(INDEX_PREFIX + t + UNIQUENESS_QUERY + action) == IndexPath(t, action)
  {
    assert INDEX_PREFIX + t + UNIQUENESS_QUERY + action == INDEX_PREFIX + t + (UNIQUENESS_QUERY + action);
    IndexPathNotOrdinary(t, UNIQUENESS_QUERY + action);
    IndexPathHasParts(t, action);
    if action == UNIQUE_CREATE_FAIL {
      CreateFailIsNotGetCreate(t);
    }
  }

  /**
   * The path names the start node in the ordinary shape, and the type's index and the
   * action in the unique shape; the two shapes never share a path.
   */
  lemma PathRoundTrip(r: RelView)
    requires Path(r).Success?
    requires IsUniqueAction(r.config.action)
    ensures ClassifyPath(Path(r).value) ==
      if IsUnique(r.config) then IndexPath(Text(r.relType), r.config.action)
      else OrdinaryPath(r.start.value.id.value)
  {
    if IsUnique(r.config) {
      IndexPathParses(Text(r.relType), r.config.action);
    } else {
      OrdinaryPathParses(r.start.value.id.value);
    }
  }

  /** Two ordinary creations share a path only when they start at the same node. */
  lemma OrdinaryPathsDistinct(r1: RelView, r2: RelView)
    requires Path(r1).Success? && Path(r2).Success?
    requires !IsUnique(r1.config) && !IsUnique(r2.config)
    requires r1.start.value.id != r2.start.value.id
    ensures Path(r1) != Path(r2)
  {
    OrdinaryPathParses(r1.start.value.id.value);
    OrdinaryPathParses(r2.start.value.id.value);
  }

  /**
   * The path is chosen by `isset` on the key, the body by a loose comparison with null.
   * They agree, index path with index body and ordinary path with ordinary body, exactly
   * when the key is not the empty string.
   */
  lemma ShapesAgreeIffKeyNotEmpty(r: RelView, endpoint: string)
    requires BuildRequest(r, endpoint).Success?
    requires IsUniqueAction(r.config.action)
    ensures var q := BuildRequest(r, endpoint).value;
      (ClassifyPath(q.path).IndexPath? <==> "key" in q.body) <==> KeyOf(r.config) != Some("")
  {
    PathRoundTrip(r);
  }

  /** With the key "", the index-shaped path is sent with an ordinary-shaped body. */
  lemma EmptyKeyPairsIndexPathWithOrdinaryBody(r: RelView, endpoint: string)
    requires BuildRequest(r, endpoint).Success?
    requires IsUniqueAction(r.config.action)
    requires KeyOf(r.config) == Some("")
    ensures var q := BuildRequest(r, endpoint).value;
      && ClassifyPath(q.path) == IndexPath(r.relType.value, r.config.action)
      && "to" in q.body && "key" !in q.body && "start" !in q.body
  {
    PathRoundTrip(r);
  }

  /** After `resetUniqueness`, a request that can be built has the ordinary shape. */
  lemma ResetGivesOrdinaryRequest(r: RelView, endpoint: string)
    requires BuildRequest(r.(config := WithoutUniqueness(r.config)), endpoint).Success?
    ensures var q := BuildRequest(r.(config := WithoutUniqueness(r.config)), endpoint).value;
      && ClassifyPath(q.path) == OrdinaryPath(r.start.value.id.value)
      && q.body.Keys == {"type", "to"} + DataKeys(r.properties)
  {
    OrdinaryPathParses(r.start.value.id.value);
  }

  /** `(int)($code / 100)`: PHP divides to a float and the cast truncates toward zero. */
  function StatusClass(code: int): (c: int)
    ensures code >= 0 ==> 100 * c <= code < 100 * c + 100
    ensures code < 0 ==> 100 * c - 100 < code <= 100 * c
  {
    if code >= 0 then code / 100 else -((-code) / 100)
  }

  function IsSuccess(code: int): (ok: bool)
    ensures ok <==> 200 <= code < 300
  {
    StatusClass(code) == 2
  }

  /** The URI of the new relationship: the `Location` header, else `body.self`, else null. */
  function CreatedUri(headers: map<string, string>, data: ResponseData): (uri: Option<string>)
    ensures "Location" in headers ==> uri == Some(headers["Location"])
    ensures "Location" !in headers ==>
      uri == if "body" in data && "self" in data["body"] then Some(data["body"]["self"]) else None
  {
    if "Location" in headers then Some(headers["Location"])
    else if "body" in data && "self" in data["body"] then Some(data["body"]["self"])
    else None
  }

  /**
   * `handleResult`. A status outside 2xx throws and touches nothing. A 2xx status gives the
   * relationship the id read from the created URI (`idFromUri` stands for the entity mapper)
   * and caches it under that id.
   */
  method HandleResult(
    rel: Relationship,
    code: int,
    headers: map<string, string>,
    data: ResponseData,
    idFromUri: Option<string> -> nat,
    cache: map<nat, Relationship>)
    returns (outcome: Result<bool, CommandError>, newCache: map<nat, Relationship>)
    modifies rel
    ensures !(200 <= code < 300) ==>
      && outcome == Failure(RequestFailed(code, headers, data))
      && Message(outcome.error) == "Unable to create relationship"
      && newCache == cache
      && unchanged(rel)
    ensures 200 <= code < 300 ==>
      var id := idFromUri(CreatedUri(headers, data));
      && outcome == Success(true)
      && rel.id == Some(id)
      && newCache == cache[id := rel]
    ensures rel.start == old(rel.start) && rel.end == old(rel.end) && rel.relType == old(rel.relType)
    ensures rel.Config() == old(rel.Config()) && rel.properties == old(rel.properties)
    ensures rel.client == old(rel.client)
  {
    if !IsSuccess(code) {
      return Failure(RequestFailed(code, headers, data)), cache;
    }
    var uri := CreatedUri(headers, data);
    var relId := idFromUri(uri);
    rel.SetId(relId);
    newCache := cache[relId := rel];
    outcome := Success(true);
  }
}
