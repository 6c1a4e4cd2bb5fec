# Relationship creation in the neo4jphp client, modelled in Dafny

This project models the part of the neo4jphp graph-database client that creates a
relationship. It covers two things.

- **The `Relationship` entity** (`lib/Everyman/Neo4j/Relationship.php`). It holds a start node,
  an end node and a type. It also holds an optional "unique" record with a nullable key and a
  nullable value, plus the unique action, `get_or_create` or `create_or_fail`.
- **The `CreateRelationship` command** (`lib/Everyman/Neo4j/Command/CreateRelationship.php`).
  It turns the relationship into a REST request: a path, the method `post` and a body map. It
  then reads the server's reply and gives the relationship its new id.

Files:

- `wrappers.dfy`: `Option`, which stands for PHP `null`, and `Result`, whose `Failure` stands
  for a thrown exception.
- `php_values.dfy`: the PHP value rules this code relies on. It covers loose comparison with
  null, truthiness of a nullable string, and concatenation of null. It also gives the decimal
  text of an id, with a parser proved to invert it.
- `relationship.dfy`: the unique configuration as a pure state machine (`UniqueConfig` and
  one function per setter). It also holds the classes `Client`, `Node` and `Relationship`.
  Every setter of `Relationship` is a method that updates fields in place and says which fields
  stay unchanged. Each unique-configuration setter also ties the new state to the matching
  state-machine function.
- `create_relationship.dfy`: the command.
  - `Path`, `Method`, `Data` and `BuildRequest` are functions over `RelView`, a snapshot of the
    relationship.
  - `ClassifyPath` parses a path back into what it addresses. Lemmas prove it inverts `Path`.
  - `HandleResult` is a method. It writes the relationship's id and returns the updated entity
    cache.

Collaborators are parameters:

- The transport's endpoint is an opaque base string.
- The entity mapper's `getIdFromUri` is a function argument `idFromUri`.
- The entity cache is a `map` from id to relationship, passed in and returned.
- The lazy-load hook `loadProperties` does nothing here. The getters that would call it return
  a flag saying whether they did.

Behaviour of the code worth knowing:

- The request path is chosen by `isUnique()`, which applies `isset` to the key. The request
  body is chosen by `getUniqueKey() != null`. That loose comparison also treats the key `""` as
  null. So with the key `""`, the index path is sent with an ordinary body. The lemmas
  `ShapesAgreeIffKeyNotEmpty` and `EmptyKeyPairsIndexPathWithOrdinaryBody` state this.
- A type is rejected when it is PHP-falsy. That covers null, `""` and also `"0"`, not only the
  empty string.
- Every non-2xx status gives the same `RequestFailed` error, `create_or_fail` included. There
  is no separate "already exists" error.
- `setUniqueAction` checks its argument with `in_array`, which compares loosely. So a
  non-string argument such as `true` is accepted, stored, and later written into the path
  as `?uniqueness=1`. The model takes string arguments only; see "Left out".
- `getData` reads the start node's id without checking the start node. With no start node
  this is a PHP fatal error, modelled as `StartNodeIsNull`. `BuildRequest` computes the path
  before the body, so it never reports that error: the start-node check in `getPath` fires
  first.

## Model

| member | source | states |
|---|---|---|
| `Relationships.InitialConfig` | lib/Everyman/Neo4j/Relationship.php:35-42 | a new relationship is not unique, its unique key and value are null, and its action is `get_or_create` |
| `Relationships.Relationship.constructor` | lib/Everyman/Neo4j/Relationship.php:23-42 | a new relationship has no id, no properties, no endpoints and no type; its unique configuration is the initial one and its action is valid |
| `Relationships.KeyOf` | lib/Everyman/Neo4j/Relationship.php:153-160 | `getUniqueKey` is null when there is no record, and the record's key otherwise |
| `Relationships.ValueOf` | lib/Everyman/Neo4j/Relationship.php:167-174 | `getUniqueValue` is null when there is no record, and the record's value otherwise |
| `Relationships.IsUnique` | lib/Everyman/Neo4j/Relationship.php:181-184 | `isUnique` holds exactly when `getUniqueKey` is non-null, which requires an existing record |
| `Relationships.WithUniqueKey` | lib/Everyman/Neo4j/Relationship.php:119-128 | after `setUniqueKey(k)`, `getUniqueKey` is `k`; the value is unchanged (null when no record existed); the action is kept; unique exactly when `k` is non-null |
| `Relationships.Relationship.SetUniqueKey` | lib/Everyman/Neo4j/Relationship.php:119-128 | updates the fields as `WithUniqueKey` says and leaves endpoints, type, id, properties and client unchanged |
| `Relationships.WithUniqueValue` | lib/Everyman/Neo4j/Relationship.php:137-146 | after `setUniqueValue(v)`, `getUniqueValue` is `v`; the key is unchanged (null when no record existed), so `isUnique` does not change |
| `Relationships.Relationship.SetUniqueValue` | lib/Everyman/Neo4j/Relationship.php:137-146 | updates the fields as `WithUniqueValue` says; nothing else changes |
| `Relationships.WithoutUniqueness` | lib/Everyman/Neo4j/Relationship.php:192-197 | after `resetUniqueness`, not unique, key and value read as null, and the action is untouched |
| `Relationships.Relationship.ResetUniqueness` | lib/Everyman/Neo4j/Relationship.php:192-197 | updates the fields as `WithoutUniqueness` says; nothing else changes |
| `Relationships.WithUniqueAction` | lib/Everyman/Neo4j/Relationship.php:208-220 | returns true exactly for the two known actions; then the action becomes `a` and the record is kept; otherwise nothing changes |
| `Relationships.Relationship.SetUniqueAction` | lib/Everyman/Neo4j/Relationship.php:208-220 | returns and stores what `WithUniqueAction` gives, keeping the action valid; nothing else changes |
| `Relationships.Relationship.GetUniqueAction` | lib/Everyman/Neo4j/Relationship.php:227-230 | returns the stored action, which is always `get_or_create` or `create_or_fail` |
| `Relationships.UniqueGatedByKey` | lib/Everyman/Neo4j/Relationship.php:181-184 | after any sequence of unique setters, `isUnique` is decided by the last key-setting or reset call alone (or by the starting state when there is none) |
| `Relationships.ValueNeverMakesUnique` | lib/Everyman/Neo4j/Relationship.php:137-146 | calls that set only values or actions never turn a non-unique relationship into a unique one |
| `Relationships.ActionIsLastAccepted` | lib/Everyman/Neo4j/Relationship.php:208-220 | after any sequence of calls, the action is the last accepted `setUniqueAction` argument, or the starting action; a valid action stays valid |
| `Relationships.Adopt` | lib/Everyman/Neo4j/Relationship.php:54-59 | an endpoint that already has a client keeps it; one without takes the offered client |
| `Relationships.AdoptKeepsFirst` | lib/Everyman/Neo4j/Relationship.php:54-59 | once an endpoint has adopted a client, later offers leave it unchanged |
| `Relationships.Relationship.SetClient` | lib/Everyman/Neo4j/Relationship.php:50-61 | the relationship takes `c`; an existing start or end node adopts `c` only if it had no client; endpoints, node ids and every other field are unchanged |
| `Relationships.Relationship.GetEndNode` | lib/Everyman/Neo4j/Relationship.php:80-86 | returns the end node; the load hook runs exactly when it is null |
| `Relationships.Relationship.GetStartNode` | lib/Everyman/Neo4j/Relationship.php:93-99 | returns the start node; the load hook runs exactly when it is null |
| `Relationships.Relationship.GetType` | lib/Everyman/Neo4j/Relationship.php:106-110 | returns the type; the load hook runs on every call |
| `Relationships.Relationship.SetEndNode` | lib/Everyman/Neo4j/Relationship.php:263-267 | sets the end node; every other field is unchanged |
| `Relationships.Relationship.SetStartNode` | lib/Everyman/Neo4j/Relationship.php:275-279 | sets the start node; every other field is unchanged |
| `Relationships.Relationship.SetType` | lib/Everyman/Neo4j/Relationship.php:287-291 | sets the type to the given value, null included; every other field is unchanged |
| `Relationships.Relationship.SetId` | lib/Everyman/Neo4j/Command/CreateRelationship.php:117 | writes the id and nothing else |
| `PhpValues.DecimalString` | lib/Everyman/Neo4j/Command/CreateRelationship.php:85 | an id concatenated into a path is a non-empty string of decimal digits with no leading zero |
| `PhpValues.ParseDecimalString` | lib/Everyman/Neo4j/Command/CreateRelationship.php:85 | reading that text back as a number gives the id |
| `PhpValues.DecimalStringInjective` | lib/Everyman/Neo4j/Command/CreateRelationship.php:85 | distinct node ids give distinct texts |
| `PhpValues.DecimalStringOfParse` | lib/Everyman/Neo4j/Command/CreateRelationship.php:85 | a non-empty digit string without a leading zero is the text of the number it reads as |
| `PhpValues.LooselyNull` | lib/Everyman/Neo4j/Command/CreateRelationship.php:47 | `== null` holds for null and for the empty string, and for no other string; `isset` differs exactly on `""` |
| `PhpValues.Falsy` | lib/Everyman/Neo4j/Command/CreateRelationship.php:40 | `!$type` holds for every loosely-null type and additionally for `"0"`, and for nothing else |
| `CreateRelationshipCommand.NodeUriInjective` | lib/Everyman/Neo4j/Command/CreateRelationship.php:44-45 | under one endpoint, distinct node ids give distinct node URIs |
| `CreateRelationshipCommand.Path` | lib/Everyman/Neo4j/Command/CreateRelationship.php:79-93 | fails with "No relationship start node specified" exactly when the start node is missing or has no id, for both shapes; the error's message is that text |
| `CreateRelationshipCommand.ClassifyPath` | lib/Everyman/Neo4j/Command/CreateRelationship.php:85-89 | every path it reads as an ordinary path is exactly `/node/{id}/relationships` with `id` written without leading zeros; every path it reads as an index path is exactly `/index/relationship/{index}?uniqueness={action}` with a valid action |
| `CreateRelationshipCommand.OrdinaryPathParses` | lib/Everyman/Neo4j/Command/CreateRelationship.php:85 | `/node/{id}/relationships` is read back as an ordinary path naming node `id` |
| `CreateRelationshipCommand.IndexPathParses` | lib/Everyman/Neo4j/Command/CreateRelationship.php:88-89 | `/index/relationship/{type}?uniqueness={action}` is read back as an index path with that index name and action, for either valid action |
| `CreateRelationshipCommand.PathRoundTrip` | lib/Everyman/Neo4j/Command/CreateRelationship.php:85-92 | when not unique, the path addresses the start node's relationships; when unique, it addresses the index named by the type with the stored action; the two shapes never coincide |
| `CreateRelationshipCommand.OrdinaryPathsDistinct` | lib/Everyman/Neo4j/Command/CreateRelationship.php:85 | ordinary paths of relationships with different start ids differ |
| `CreateRelationshipCommand.Method` | lib/Everyman/Neo4j/Command/CreateRelationship.php:69-72 | the method is always `post` |
| `CreateRelationshipCommand.Data` | lib/Everyman/Neo4j/Command/CreateRelationship.php:33-62 | end-node check first, then the type check (null, "" and "0" fail); the body always has `type`; with a loosely non-null key it has exactly `key`, `value`, `start`, `end` (node URIs from the endpoint), with no `to`; otherwise exactly `to`; `data` is present exactly when there are properties; the end-node and type errors carry the source's messages |
| `CreateRelationshipCommand.BuildRequest` | lib/Everyman/Neo4j/Command/CreateRelationship.php:35-92 | errors come in the order start node, end node, type; a request is built exactly when all three are present, with method `post`, the path of `Path` and the body of `Data` |
| `CreateRelationshipCommand.ShapesAgreeIffKeyNotEmpty` | lib/Everyman/Neo4j/Command/CreateRelationship.php:47-87 | the path shape (by `isset`) and the body shape (by loose `!= null`) agree exactly when the unique key is not `""` |
| `CreateRelationshipCommand.EmptyKeyPairsIndexPathWithOrdinaryBody` | lib/Everyman/Neo4j/Command/CreateRelationship.php:47-89 | with the key `""`, the index path is paired with a body holding `to` and no `key` or `start` |
| `CreateRelationshipCommand.ResetGivesOrdinaryRequest` | lib/Everyman/Neo4j/Relationship.php:192-197 | after `resetUniqueness`, a request that can be built uses the ordinary path of the start node and an ordinary body |
| `CreateRelationshipCommand.StatusClass` | lib/Everyman/Neo4j/Command/CreateRelationship.php:106 | `(int)($code / 100)` rounds the quotient toward zero |
| `CreateRelationshipCommand.IsSuccess` | lib/Everyman/Neo4j/Command/CreateRelationship.php:106-108 | a status counts as success exactly when it lies in 200..299 |
| `CreateRelationshipCommand.CreatedUri` | lib/Everyman/Neo4j/Command/CreateRelationship.php:111-115 | the URI is the `Location` header when present, else `body.self`, else null |
| `CreateRelationshipCommand.HandleResult` | lib/Everyman/Neo4j/Command/CreateRelationship.php:104-120 | outside 2xx: fails with "Unable to create relationship", the code, headers and data, relationship and cache untouched; on 2xx: returns true, the id becomes the one extracted from the URI, and the cache maps that id to the relationship; no other field changes |

## Left out

- `delete`, `load` and `save` only delegate to the client session, which is not part of this model. So is the `useLazyLoad(false)` call in `save`.
- `__sleep` serialisation and the `Direction*` constants are not used in relationship creation.
- The transport, the HTTP exchange and `getEndpoint`: the endpoint is a string parameter, and the status, headers and decoded data are parameters of `HandleResult`.
- The `Command` base class (`execute`, `throwException`) is not part of this model. `BuildRequest` assumes that `execute` computes the path before the body. An exception is a `Failure` value.
- `EntityMapper::getIdFromUri` is not part of this model; it is the parameter `idFromUri`. It also receives a null URI when the reply has neither `Location` nor `body.self`.
- The entity cache class is not part of this model; it is a map from id to relationship.
- The `PropertyContainer` base is not part of this model. `hasId` is "the id is not null", `setId` is a plain write, and the id is not protected against being set twice. The constructor is assumed to attach the given client.
- Relationships.Relationship.SetUniqueAction: arguments are strings, as the `@param string` docblock says. PHP's loose `in_array` would also accept `true` (and, before PHP 8, `0`), store it, and put `?uniqueness=1` in the path; that case is not modelled.
- Relationships.WithUniqueAction: takes a string action, for the same reason as `SetUniqueAction`.
- Relationships.Relationship.GetUniqueAction: "always one of the two actions" holds because arguments are strings; with the loosely accepted `true` it would not.
- Relationships.Relationship.GetStartNode: `loadProperties` is a no-op here, so the model records only whether the hook ran. It does not capture what lazy loading would fill in.
- Relationships.Relationship.GetEndNode: as for `GetStartNode`.
- Relationships.Relationship.GetType: as for `GetStartNode`.
- Unique keys, values and types are nullable strings. PHP's loose comparison of non-string keys with null (`0`, `false`, `[]`) is not modelled.
- Property values are strings. Arrays and other scalars are not modelled.
