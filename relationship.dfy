/**
 * A relationship between two nodes of the graph: its endpoints, its type, and the
 * configuration for creating it through the unique-relationship index (an optional
 * record holding a key and a value, and the action the server takes on a conflict).
 *
 * The unique configuration is first specified as a pure state machine over
 * `UniqueConfig`; the `Relationship` class keeps the same state in mutable fields and
 * each of its unique-configuration setters is proved to perform one step of that machine.
 */
module Relationships {
  import opened Wrappers
  import opened PhpValues

  /** Create the relationship, or return the one that already exists. */
  const UNIQUE_GET_CREATE: string := "get_or_create"
  /** Create the relationship, or report an error if it already exists. */
  const UNIQUE_CREATE_FAIL: string := "create_or_fail"

  predicate IsUniqueAction(a: string) {
    a == UNIQUE_GET_CREATE || a == UNIQUE_CREATE_FAIL
  }

  /** The `unique` array: both entries may be null. */
  datatype UniqueRecord = UniqueRecord(key: Option<string>, value: Option<string>)

  /** The fields `unique` (`false`, here `None`, or a record) and `uniqueAction`. */
  datatype UniqueConfig = UniqueConfig(record: Option<UniqueRecord>, action: string)

  /** `getUniqueKey`: null when there is no record. */
  function KeyOf(u: UniqueConfig): (k: Option<string>)
    ensures u.record.None? ==> k == None
    ensures u.record.Some? ==> k == u.record.value.key
  {
    if u.record.Some? then u.record.value.key else None
  }

  /** `getUniqueValue`: null when there is no record. */
  function ValueOf(u: UniqueConfig): (v: Option<string>)
    ensures u.record.None? ==> v == None
    ensures u.record.Some? ==> v == u.record.value.value
  {
    if u.record.Some? then u.record.value.value else None
  }

  /** `isUnique`: the record exists and `isset` holds of its key. */
  function IsUnique(u: UniqueConfig): (b: bool)
    ensures b <==> KeyOf(u) != None
    ensures b ==> u.record.Some?
  {
    u.record.Some? && IsSet(u.record.value.key)
  }

  /** The configuration of a freshly constructed relationship. */
  function InitialConfig(): (u: UniqueConfig)
    ensures !IsUnique(u) && KeyOf(u) == None && ValueOf(u) == None
    ensures u.action == UNIQUE_GET_CREATE
  {
    UniqueConfig(None, UNIQUE_GET_CREATE)
  }

  /** `setUniqueKey`: creates an all-null record if there is none, then sets its key. */
  function WithUniqueKey(u: UniqueConfig, k: Option<string>): (r: UniqueConfig)
    ensures KeyOf(r) == k
    ensures ValueOf(r) == ValueOf(u)
    ensures r.record.Some? && r.action == u.action
    ensures IsUnique(r) <==> k != None
  {
    var rec := if u.record.Some? then u.record.value else UniqueRecord(None, None);
    u.(record := Some(rec.(key := k)))
  }

  /** `setUniqueValue`: creates an all-null record if there is none, then sets its value. */
  function WithUniqueValue(u: UniqueConfig, v: Option<string>): (r: UniqueConfig)
    ensures ValueOf(r) == v
    ensures KeyOf(r) == KeyOf(u)
    ensures r.record.Some? && r.action == u.action
    ensures IsUnique(r) <==> IsUnique(u)
  {
    var rec := if u.record.Some? then u.record.value else UniqueRecord(None, None);
    u.(record := Some(rec.(value := v)))
  }

  /** `resetUniqueness`: the record goes back to `false`; the action is kept. */
  function WithoutUniqueness(u: UniqueConfig): (r: UniqueConfig)
    ensures !IsUnique(r) && KeyOf(r) == None && ValueOf(r) == None
    ensures r.action == u.action
  {
    u.(record := None)
  }

  /** `setUniqueAction`: accepts exactly the two known actions, otherwise changes nothing. */
  function WithUniqueAction(u: UniqueConfig, a: string): (r: (bool, UniqueConfig))
    ensures r.0 <==> IsUniqueAction(a)
    ensures r.0 ==> r.1.action == a && r.1.record == u.record
    ensures !r.0 ==> r.1 == u
  {
    if a == UNIQUE_GET_CREATE || a == UNIQUE_CREATE_FAIL then (true, u.(action := a)) else (false, u)
  }

  /** One call of a unique-configuration setter. */
  datatype UniqueOp =
    | SetKey(key: Option<string>)
    | SetValue(value: Option<string>)
    | Reset
    | SetAction(action: string)

  function Step(u: UniqueConfig, op: UniqueOp): UniqueConfig {
    match op
    case SetKey(k) => WithUniqueKey(u, k)
    case SetValue(v) => WithUniqueValue(u, v)
    case Reset => WithoutUniqueness(u)
    case SetAction(a) => WithUniqueAction(u, a).1
  }

  /** The configuration after the calls `ops`, made in order. */
  function Run(u: UniqueConfig, ops: seq<UniqueOp>): UniqueConfig {
    if ops == [] then u else Step(Run(u, ops[..|ops| - 1]), ops[|ops| - 1])
  }

  /**
   * Whether the relationship is unique after `ops`, decided from the calls alone: the last
   * call that sets the key or resets decides; value and action calls never do.
   */
  function UniqueAfter(u: UniqueConfig, ops: seq<UniqueOp>): bool {
    if ops == [] then IsUnique(u)
    else match ops[|ops| - 1]
      case SetKey(k) => k != None
      case Reset => false
      case _ => UniqueAfter(u, ops[..|ops| - 1])
  }

  /** The key gates uniqueness: after any sequence of calls, `isUnique` is what `UniqueAfter` says. */
  lemma {:induction false} UniqueGatedByKey(u: UniqueConfig, ops: seq<UniqueOp>)
    ensures IsUnique(Run(u, ops)) == UniqueAfter(u, ops)
  {
    if ops != [] {
      UniqueGatedByKey(u, ops[..|ops| - 1]);
    }
  }

  /** Setting values and actions, however often, never makes a relationship unique. */
  lemma {:induction false} ValueNeverMakesUnique(u: UniqueConfig, ops: seq<UniqueOp>)
    requires forall i :: 0 <= i < |ops| ==> !ops[i].SetKey?
    ensures IsUnique(Run(u, ops)) ==> IsUnique(u)
  {
    if ops != [] {
      ValueNeverMakesUnique(u, ops[..|ops| - 1]);
    }
  }

  /** The action, after any sequence of calls, is the last accepted one, or the starting one. */
  function ActionAfter(u: UniqueConfig, ops: seq<UniqueOp>): string {
    if ops == [] then u.action
    else match ops[|ops| - 1]
      case SetAction(a) => if IsUniqueAction(a) then a else ActionAfter(u, ops[..|ops| - 1])
      case _ => ActionAfter(u, ops[..|ops| - 1])
  }

  /**
   * `uniqueAction` only changes through an accepted `setUniqueAction`, so it stays one of the
   * two known actions whatever is called.
   */
  lemma {:induction false} ActionIsLastAccepted(u: UniqueConfig, ops: seq<UniqueOp>)
    ensures Run(u, ops).action == ActionAfter(u, ops)
    ensures IsUniqueAction(u.action) ==> IsUniqueAction(Run(u, ops).action)
  {
    if ops != [] {
      ActionIsLastAccepted(u, ops[..|ops| - 1]);
    }
  }

  /** The session a relationship or node belongs to; opaque here. */
  class Client {
    constructor() {}
  }

  /** The parts of a node this model needs: its server id and its session. */
  class Node {
    var id: Option<nat>
    var client: Client?

    constructor(id: Option<nat>, client: Client?)
      ensures this.id == id && this.client == client
    {
      this.id := id;
      this.client := client;
    }
  }

  /** An endpoint as the creation command sees it: only its id matters. */
  datatype NodeView = NodeView(id: Option<nat>)

  /** A snapshot of everything the creation command reads from a relationship. */
  datatype RelView = RelView(
    start: Option<NodeView>,
    end: Option<NodeView>,
    relType: Option<string>,
    config: UniqueConfig,
    properties: map<string, string>)

  function ViewOf(n: Node?): (v: Option<NodeView>)
    reads n
    ensures v.Some? <==> n != null
  {
    if n == null then None else Some(NodeView(n.id))
  }

  /** The session a node adopts when offered `c`: an existing session is never overwritten. */
  function Adopt(current: Client?, c: Client): (r: Client)
    ensures current != null ==> r == current
    ensures current == null ==> r == c
  {
    if current == null then c else current
  }

  /** Adopting is settled after the first offer: later offers change nothing. */
  lemma AdoptKeepsFirst(current: Client?, c: Client, d: Client)
    ensures Adopt(Adopt(current, c), d) == Adopt(current, c)
  {
  }

  class Relationship {
    // fields of the property-container base
    var id: Option<nat>
    var properties: map<string, string>
    var client: Client?
    // fields of the relationship itself
    var start: Node?
    var end: Node?
    var relType: Option<string>
    var unique: Option<UniqueRecord>
    var uniqueAction: string

    ghost predicate Valid()
      reads this
    {
      IsUniqueAction(uniqueAction)
    }

    function Config(): UniqueConfig
      reads this
    {
      UniqueConfig(unique, uniqueAction)
    }

    function View(): RelView
      reads this, start, end
    {
      RelView(ViewOf(start), ViewOf(end), relType, Config(), properties)
    }

    /** A new relationship attached to `c`, with no endpoints, no type and no unique record. */
    constructor(c: Client)
      ensures Valid()
      ensures id == None && properties == map[] && client == c
      ensures start == null && end == null && relType == None
      ensures Config() == InitialConfig()
    {
      id := None;
      properties := map[];
      client := c;
      start := null;
      end := null;
      relType := None;
      unique := None;
      uniqueAction := UNIQUE_GET_CREATE;
    }

    /** Attaches the relationship to `c` and offers `c` to each endpoint that has no session. */
    method SetClient(c: Client)
      modifies this, start, end
      ensures client == c
      ensures start == old(start) && end == old(end)
      ensures start != null ==> start.client == Adopt(old(start.client), c) && start.id == old(start.id)
      ensures end != null ==> end.client == Adopt(old(end.client), c) && end.id == old(end.id)
      ensures id == old(id) && properties == old(properties) && relType == old(relType)
      ensures Config() == old(Config())
    {
      client := c;
      if start != null && start.client == null {
        start.client := c;
      }
      if end != null && end.client == null {
        end.client := c;
      }
    }

    /** `getStartNode`; `hookCalled` reports whether the lazy-load hook ran. */
    method GetStartNode() returns (n: Node?, hookCalled: bool)
      ensures n == start
      ensures hookCalled <==> start == null
    {
      hookCalled := start == null;
      n := start;
    }

    /** `getEndNode`; `hookCalled` reports whether the lazy-load hook ran. */
    method GetEndNode() returns (n: Node?, hookCalled: bool)
      ensures n == end
      ensures hookCalled <==> end == null
    {
      hookCalled := end == null;
      n := end;
    }

    /** `getType` runs the lazy-load hook on every call, whether or not the type is set. */
    method GetType() returns (t: Option<string>, hookCalled: bool)
      ensures t == relType
      ensures hookCalled
    {
      hookCalled := true;
      t := relType;
    }

    method SetUniqueKey(k: Option<string>)
      requires Valid()
      modifies this
      ensures Valid()
      ensures Config() == WithUniqueKey(old(Config()), k)
      ensures id == old(id) && properties == old(properties) && client == old(client)
      ensures start == old(start) && end == old(end) && relType == old(relType)
    {
      var rec := if unique.Some? then unique.value else UniqueRecord(None, None);
      unique := Some(rec.(key := k));
    }

    method SetUniqueValue(v: Option<string>)
      requires Valid()
      modifies this
      ensures Valid()
      ensures Config() == WithUniqueValue(old(Config()), v)
      ensures id == old(id) && properties == old(properties) && client == old(client)
      ensures start == old(start) && end == old(end) && relType == old(relType)
    {
      var rec := if unique.Some? then unique.value else UniqueRecord(None, None);
      unique := Some(rec.(value := v));
    }

    method ResetUniqueness()
      requires Valid()
      modifies this
      ensures Valid()
      ensures Config() == WithoutUniqueness(old(Config()))
      ensures id == old(id) && properties == old(properties) && client == old(client)
      ensures start == old(start) && end == old(end) && relType == old(relType)
    {
      unique := None;
    }

    method SetUniqueAction(a: string) returns (ok: bool)
      requires Valid()
      modifies this
      ensures Valid()
      ensures (ok, Config()) == WithUniqueAction(old(Config()), a)
      ensures id == old(id) && properties == old(properties) && client == old(client)
      ensures start == old(start) && end == old(end) && relType == old(relType)
    {
      if a == UNIQUE_GET_CREATE || a == UNIQUE_CREATE_FAIL {
        uniqueAction := a;
        ok := true;
      } else {
        ok := false;
      }
    }

    /** `getUniqueAction`: always one of the two known actions. */
    method GetUniqueAction() returns (a: string)
      requires Valid()
      ensures a == Config().action
      ensures a == UNIQUE_GET_CREATE || a == UNIQUE_CREATE_FAIL
    {
      a := uniqueAction;
    }

    method SetStartNode(n: Node)
      modifies this
      ensures start == n
      ensures end == old(end) && relType == old(relType) && Config() == old(Config())
      ensures id == old(id) && properties == old(properties) && client == old(client)
    {
      start := n;
    }

    method SetEndNode(n: Node)
      modifies this
      ensures end == n
      ensures start == old(start) && relType == old(relType) && Config() == old(Config())
      ensures id == old(id) && properties == old(properties) && client == old(client)
    {
      end := n;
    }

    /** `setType` takes any value; null clears the type. */
    method SetType(t: Option<string>)
      modifies this
      ensures relType == t
      ensures start == old(start) && end == old(end) && Config() == old(Config())
      ensures id == old(id) && properties == old(properties) && client == old(client)
    {
      relType := t;
    }

    /** The property-container base's `setId`: a plain write of the id. */
    method SetId(newId: nat)
      modifies this
      ensures id == Some(newId)
      ensures start == old(start) && end == old(end) && relType == old(relType)
      ensures Config() == old(Config()) && properties == old(properties) && client == old(client)
    {
      id := Some(newId);
    }
  }
}
