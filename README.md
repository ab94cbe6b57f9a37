# Brezel API client — a verified model

A Dafny model of the core of the Brezel PHP API client: the `Entity` record that turns
an attribute array from the API into a typed object (declared properties, dynamic
properties, nested entities built recursively, array-style access), and the `Client`
that shapes every request around one transport call (module registry, impersonation,
authentication and impersonation headers, JSON body and query, system-prefixed paths and
URLs, the listing query, the 404-to-null rule, webhook path filtering) and turns the
replies into entities.

Files and modules:

- `wrappers.dfy` (`Wrappers`): `Option` for PHP's nullable values, `Result` and `Outcome`
  for calls that may throw.
- `php_scalars.dfy` (`PhpScalars`): the parts of PHP's scalar semantics the code relies on.
  This covers the decimal string of an integer, which is also the form of integer array
  keys, proved to round-trip. It also covers string truthiness and `implode`.
- `php_arrays.dfy` (`PhpArrays`): PHP arrays as ordered sequences of entries with distinct
  keys. It defines lookup, assignment and `array_merge`. `array_merge` is proved to let
  string keys of the second array win and to renumber integer keys.
- `entity.dfy` (`Entities`): `class Entity` with its declared and dynamic property maps.
  - Reflection is replaced by a class table: for every class, its declared properties in
    order, with their kind (entity-typed, other named type, untyped) and default value.
  - A valid class table (`ValidTable`) declares `Entity` itself with its own four
    properties and every entity type that a property names.
  - Construction is `Entity.Construct`. It is specified against pure functions:
    - `Failure`: the error it throws, if any;
    - `Plan`: the properties it ends with;
    - `Built`: a ghost predicate, over a view of the heap, saying that an object and all
      nested objects hold what `Plan` says.
- `client.dfy` (`Clients`): `class Client`.
  - The transport, `json_decode` and `json_encode` are the functions of an `Io` parameter.
  - Each request method is proved equal to a pure description of the call it makes
    (`Prepared`, `SystemCall`, `Exchange`), and the properties are proved about those.

Where the code is narrower than a reader might expect, the model follows the code:

- `toArray` is `get_object_vars`: nested entities stay objects, they are not exported
  recursively, and `id`/`module_id` are not re-written last.
- `offsetUnset` on a declared property makes it uninitialised: it leaves `toArray`, and
  reading it back throws for a typed property. It does not become null.
- Reading an uninitialised typed property throws; reading an unknown key gives null.
- A declared property without a type makes `parseProperty` fail: `getName()` is called
  on a missing type.
- The API key and the bearer token are read with PHP truthiness: `""` and `"0"` count as
  absent.
- When the eager-load list is empty, the query array holds `with => null`; the key is
  not dropped from the array.
- The webhook path drops every falsy segment, including an event `""` or `"0"` and an
  entity id 0, not only a missing module and entity id.
- Rebuilding an entity from its own `toArray` gives back the same properties, with nested
  entities as the same objects. It throws when an untyped declared property holds
  anything but an entity object, null included, because `parseProperty` reads that
  property's missing type (the model's values hold no other kind of object).
- The empty string is a valid dynamic property name; only a non-empty name starting with
  NUL is refused.
- `getSystemURL` with an empty array path ends in `/`; the request path of the same
  system request does not.

## Model

| member | source | states |
|---|---|---|
| Entities.Entity.Instantiate | src/Entity.php:12-15 | a new object holds exactly the declared defaults and no dynamic property |
| Entities.DefaultsLookup | src/Entity.php:12-15 | the properties initialised before the constructor runs are exactly the declared ones with a default, holding that default |
| Entities.BaseDefaults | src/Entity.php:12-15 | `Entity` starts with `created_at` and `updated_at` null and `id`, `module_id` unset |
| Entities.BaseTimestamps | src/Entity.php:12-27 | under a valid class table, an `Entity` built from attributes without `created_at` or `updated_at` holds null for that property |
| Entities.KnownClassesOnly | src/Entity.php:20-44 | under a class table that declares every entity type its properties name, construction never fails for want of a class, at any depth of nesting |
| Entities.IdentifiersGate | src/Entity.php:20-23 | `new cls(attrs)` throws for an unknown class; for a declared class it throws for the first of `id`, `module_id` that is missing or not an integer, and otherwise fails exactly as its loop over the entries does |
| Entities.Entity.Construct | src/Entity.php:20-27 | `new cls(attrs)` fails exactly with `Failure(t, cls, attrs)` (unknown class, missing or non-integer `id`/`module_id`, the first failing entry); on success the new object and every nested one are as `Built` describes |
| Entities.Entity.Build | src/Entity.php:22-26 | once the identifiers are integers, construction fails exactly when some entry fails (`EntriesFailure`) and otherwise ends in `Built` |
| Entities.Entity.Fill | src/Entity.php:24-26 | the loop over the attributes stops with the first entry's error, and otherwise has stored every entry as planned, in order |
| Entities.Entity.Step | src/Entity.php:25 | one pass of the loop either reports the overall error or extends the planned state by one entry |
| Entities.Entity.Assign | src/Entity.php:25 | `$this->$k = parseProperty($k, $v)` fails exactly with `EntryFailure`, changes nothing on failure, and otherwise changes only key `k` to the parsed value |
| Entities.Entity.ParseProperty | src/Entity.php:32-45 | fails exactly with `ParseFailure`; on success the result is the value unchanged, or an entity built from it by the declared entity class |
| Entities.SlotOf | src/Entity.php:34-44 | a value becomes a freshly built entity exactly when its key is declared with an entity type and the value is an array; null, an entity object and everything else is stored as given |
| Entities.PlanKeys | src/Entity.php:24-26 | the properties after construction are exactly the defaults plus every key of the attributes |
| Entities.PlanEntry | src/Entity.php:24-26 | every attribute ends in its own slot, decided by `SlotOf`; later entries never overwrite an earlier key |
| Entities.PlanDefault | src/Entity.php:24-26 | a property the attributes do not mention keeps its default, or stays unset |
| Entities.BuiltKeys | src/Entity.php:20-27 | a built entity's `toArray` keys are the defaults plus the attribute keys, and unmentioned defaults keep their values |
| Entities.BuiltEntry | src/Entity.php:24-44 | after construction every attribute is stored under its key, as given or as an entity built from it by the declared entity class |
| Entities.BuiltIdentifiers | src/Entity.php:22-25 | a built entity's `id` and `module_id` are the input's values |
| Entities.RebuildSucceeds | src/Entity.php:20-50 | constructing the class again from an array that lists exactly an entity's `toArray` succeeds when its untyped declared properties hold objects, and plans every property as it is, nested entities as the same objects |
| Entities.RebuildSame | src/Entity.php:20-50 | an entity rebuilt that way exports the same properties with the same values |
| Entities.RebuildUntyped | src/Entity.php:20-50 | rebuilding fails when an untyped declared property holds anything but an entity object, since `parseProperty` asks its missing type for a name |
| Entities.Entity.ToArray | src/Entity.php:47-50 | the snapshot holds exactly the initialised declared properties and the dynamic ones |
| Entities.ArrayKeysExist | src/Entity.php:47-55 | every key of `toArray` exists for `offsetExists` and is a valid property name |
| Entities.Entity.OffsetExists | src/Entity.php:52-55 | on a valid object, true exactly for every declared property, set or not, and for every key `toArray` shows |
| Entities.Entity.OffsetGet | src/Entity.php:57-60 | a set property reads as its value; an unset typed property and a non-empty name starting with NUL throw; anything else, the empty name included, reads as null |
| Entities.Entity.OffsetSet | src/Entity.php:62-65 | writes `v` under `k` in the declared or the dynamic map, as `k` is declared or not, changes no other key, and fails only for a non-empty name starting with NUL; the empty name is an ordinary dynamic property |
| Entities.Entity.OffsetUnset | src/Entity.php:67-70 | removes `k` from both maps, and fails only for a non-empty name starting with NUL; `offsetExists(k)` afterwards holds exactly when `k` is declared |
| PhpArrays.Merge | src/Client.php:115-120 | `array_merge`: string keys of the second array win over the first, and integer-keyed values are the first's then the second's, renumbered from 0 |
| PhpArrays.MergeIntegerKeys | src/Client.php:115-120 | after `array_merge` renumbers, an integer key is present exactly when its value is below the number of integer-keyed values of both arrays |
| Clients.Client.constructor | src/Client.php:29-36 | a new client holds its configuration, no registrations, no share URL and no impersonation |
| Clients.Client.Clone | src/Client.php:46 | `clone` copies every field |
| Clients.Client.Impersonated | src/Client.php:44-49 | returns a fresh copy impersonating `u`, with every other field equal, and leaves this client untouched |
| Clients.Client.Impersonate | src/Client.php:57-61 | sets the impersonated user, returns this same client, changes nothing else |
| Clients.Client.RegisterModule | src/Client.php:63-66 | records one more registration and keeps the map equal to the registration history |
| Clients.Latest | src/Client.php:68-71 | there is no registration for `m` exactly when no entry of the history names `m` |
| Clients.LatestIsLast | src/Client.php:63-71 | the constructor found for `m` is that of the last registration of `m` |
| Clients.RegistryLatest | src/Client.php:63-71 | the registry map holds `m` exactly when `m` was registered, with the latest constructor |
| Clients.Client.GetEntityClass | src/Client.php:68-71 | the most recently registered constructor for the module, or `Entity` itself when there is none |
| Clients.FallbackClassKnown | src/Client.php:68-87 | a module with no registered constructor is built as `Entity`, which under a valid class table never fails for want of a class |
| Clients.Client.InitEntity | src/Client.php:79-87 | a factory's result is returned as is; a class name is constructed, failing exactly as that construction fails |
| Clients.AuthHeaders | src/Client.php:199-203 | `X-API-Key` exactly when the key is truthy; `Authorization: Bearer <token>` exactly when the key is not and the token is; never both |
| Clients.RequestHeadersSpec | src/Client.php:199-207 | the request headers: each auth header as above, `X-Impersonate` with the user id exactly when impersonating, whatever the auth mode, every other caller header kept, nothing else added |
| Clients.Client.AddHeaders | src/Client.php:199-207 | the step-by-step header updates give exactly `RequestHeaders` |
| Clients.Client.AddAuth | src/Client.php:199-203 | the conditional update adds exactly `AuthHeaders` over the caller's headers |
| Clients.Client.AddImpersonation | src/Client.php:205-207 | the conditional update adds exactly the impersonation header |
| Clients.Client.PrepareOptions | src/Client.php:199-215 | the step-by-step option updates give exactly `Prepared`: the headers above, the JSON body when data is non-empty and the method is not GET, the query when non-empty |
| Clients.SingleAuthHeader | src/Client.php:199-207 | a system request carries `X-API-Key` or `Authorization`, never both, and `X-Impersonate` exactly when impersonating |
| Clients.BodyAndQuery | src/Client.php:209-215 | a system request carries a JSON body exactly when data is non-empty and the method is not GET, and a query exactly when it is non-empty |
| Clients.Client.Request | src/Client.php:191-225 | one transport call with the joined path and the prepared options; a transport failure keeps its code |
| Clients.Client.SystemRequest | src/Client.php:242-250 | the request goes to the system segment followed by the given path |
| Clients.SystemUriShape | src/Client.php:248-249 | the system path is `system/<path>`: the system segment comes first, a string path is one segment, and an empty array path leaves only `system` |
| Clients.Client.GetSystemURL | src/Client.php:252-256 | a string path is one segment after `(base ?? apiUrl)/system/`; an empty array path leaves `(base ?? apiUrl)/system/` |
| Clients.SystemUrlMatchesRequest | src/Client.php:252-256 | `getSystemURL` is the base (override, else API URL) followed by `/` and the system request path, with a trailing `/` for an empty path |
| Clients.Client.GetSharedFileURL | src/Client.php:183-186 | the shared-file URL is `(shareUrl ?? apiUrl)/system/shared/<token>` |
| Clients.ListParams | src/Client.php:115-120 | the four listing parameters, under their own string keys |
| Clients.ListQuery | src/Client.php:115-120 | the listing query has `page`, the encoded `pre_filters`, `results` (or null) and `with` (encoded, or null when empty) overriding the caller's, keeps every other string key of the caller, and keeps the caller's integer-keyed values |
| Clients.ItemsFailure | src/Client.php:122 | no item fails exactly when every item is an array that its constructor accepts |
| Clients.Client.InitEntities | src/Client.php:122 | one entity per item, in order, each made by the module's constructor from that item, or the first item's error |
| Clients.Client.GetEntities | src/Client.php:107-123 | under a valid class table, a GET of `modules/<module>/resources` with the listing query; transport errors propagate; a text reply or a missing or null `data` gives no entities; a `data` that is neither null nor an array is a type error; otherwise one entity per element of `data`, in order, or the first item's error |
| Clients.Client.ListEntities | src/Client.php:121-122 | the reply handling of `getEntities`: error, no entities, type error, or one entity per element of `data` in order, as above |
| Clients.Client.GetEntity | src/Client.php:132-143 | under a valid class table, null exactly when the request fails with code 404; every other failure propagates; a text reply is a type error; otherwise the module's constructor applied to the reply |
| Clients.FilterFalsy | src/Client.php:168 | `array_filter` keeps exactly the truthy segments and nothing else |
| Clients.FilterConcat | src/Client.php:168 | filtering keeps the segments' order |
| Clients.FilterTruthy | src/Client.php:168 | a path without falsy segments is unchanged |
| Clients.FilterIdempotent | src/Client.php:168 | filtering twice is filtering once |
| Clients.WebhookPieces | src/Client.php:168 | the webhook path starts with `webhook`, has no falsy segment, has the event second exactly when it is truthy, keeps a truthy module, and has the entity id exactly when it is non-zero |
| Clients.WebhookPath | src/Client.php:168 | the webhook path exactly: `webhook`, then the event, the module and the entity id that are truthy, in that order |
| Clients.Client.Webhook | src/Client.php:166-169 | a POST to the system path built from the filtered segments |

## Left out

- Integers are unbounded; PHP's 64-bit range and its overflow to float are not modelled.
  Floats are not modelled.
- Weak-mode coercion of typed properties is not modelled. `src/Entity.php` does not
  declare strict types, so PHP would coerce, for example, an `id` of `"5"` to 5. The model
  treats a missing or non-integer `id`/`module_id` as a type error, and lets any other
  typed property accept any value.
- Union and intersection property types are not modelled: `Kind` has no case for them.
  For such a property `$type->getName()` (src/Entity.php:37) throws, because those
  reflection types have no `getName`.
- `parseResponse` is kept abstract on purpose. `ParseResponse` only chooses between two
  outcomes on the content type: the exact type `application/json` is decoded by the `Io`
  parameter, and a body that does not decode is an error with code 0; every other reply is
  text. What the decoder accepts is not modelled, so nothing further is proved about it.
- Constructing an `Entity` from another `Entity` object (the `Entity|array` parameter) is
  not modelled. The API only passes arrays.
- `get_object_vars` order is not modelled: `toArray` is a map, not an ordered array.
- `InitEntity`: a registered string is always treated as a class name. `is_callable` on a
  string naming a function is not modelled.
- `InitEntity`: factories are total functions. Their own failures and side effects are
  not modelled.
- The transport, `json_decode` and `json_encode` are parameters. Their failures are
  modelled only as a transport failure with a code, or a body that does not decode.
- A JSON reply whose top-level value is not an array is not modelled: the model treats it
  as a body that does not decode. In PHP a scalar reply is turned into a string by the
  `array|string` return type, and a `null` reply throws a type error.
- `json_encode` returning false is not modelled.
- Guzzle's own use of options, and option keys other than `headers`, `json` and `query`,
  are not modelled.
- Exception messages and exception chaining are not modelled; only the status code is.
- `array_map` returns an array keyed like `data`; the model returns the entities as a
  sequence in the same order.
- `array_filter` keeps the original keys. `implode` ignores keys, so the model keeps only
  the order.
- The thin wrappers `getGeneralInfo`, `putEntity`, `shareFile`, `getSharedFileContents`,
  `putSystemRequest`, `deleteSystemRequest`, `getShareUrl` and `setShareUrl` are left
  out. Each is one call of an operation that is modelled, or a field read or write.
- Entities.Entity.OffsetSet: its contract states the new maps, not "`offsetGet(k)` returns
  `v`". That follows from `OffsetGet`'s contract on the new state, since a method cannot
  be called inside a lemma.
- Entities.Entity.ToArray: states its keys only. Its values are the union of the two maps,
  and the other members use it that way.
