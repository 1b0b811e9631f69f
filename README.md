# Mongez service provider and memoising helpers, modelled in Dafny

This project models the two pieces of decision logic in the Mongez Laravel
package. The framework itself is replaced by injected stand-ins.

- **`repo()` and `events()`** (`src/Helpers/functions.php`). `repo($name)`
  keeps a per-process cache from repository name to instance. On a miss it
  reads `mongez.repositories.<name>` from the configuration. A falsy value
  (null, `false`, `0`, `""`, `"0"`, an empty array) throws
  `NotFoundRepositoryException` with the message
  `Call to undefined repository: <name>`. Any other value is passed to the
  container. If the container cannot build it, its exception propagates and
  nothing is cached, so the next call asks again. Otherwise the instance is
  cached first. It is returned only if it implements `RepositoryInterface`,
  the declared return type of `repo()`. If it does not, this call raises a
  `TypeError`, and so does every later call for that name, because the
  instance stays cached. The cache hit test is `!empty(...)`. So a cached
  value PHP counts as empty (a binding to null, `false`, `0` or `""`) is no
  hit, and causes the config and the container to be asked again. `events()`
  is a one-slot memo of the Events singleton. On an unset or empty slot it
  asks the container for the Events class, and answers and stores what
  comes back. When the container throws, that exception is the answer and
  the slot is left as it was. Module `Helpers` describes one call
  as a pure step over the helpers' static state (`LookupRepository`,
  `FetchEvents`) and a process as a sequence of calls (`Run`). The class
  `FunctionStatics` holds the `repos` map and the `events` slot, and its
  methods are proved to take exactly those steps. The state also keeps two
  observation logs: the container calls made (`made`) and the config keys
  read (`consulted`). With them, "answered from the cache without asking the
  configuration or the container" is something a lemma can state.
- **The service provider** (`src/Providers/MongezServiceProvider.php`). The
  class `MongezServiceProvider` has the source's `config` field and a `log`
  of every request it makes of the framework, in order. That covers
  container singletons, `mixin` calls and Eloquent macros, fetching `Events`
  and each `subscribe`, `Schema::defaultStringLength`, registering the
  commands, `Mongez::init`/`install`, and the `migrate` call. Each method
  (`Register`, `Boot`, `PrepareForFirstTime`, `RegisterMacros`,
  `RegisterEventsListeners`, `ManageDatabase`) is proved to append exactly
  the list given by a specification function of the configuration
  (`RegisterActions`, `BootActions`, ...). Module `ProviderProperties` proves
  what those lists guarantee: subscription count, order and normalisation,
  macro mirroring, the phase order of `register()`, and the gates.

Module `Php` holds the configuration value type and the PHP semantics the
decisions depend on:
- truthiness;
- the `(array)` cast;
- `foreach` over a non-array, which visits nothing;
- `Arr::get` over a key path;
- `strtolower`;
- PHP 8 loose comparison with `'mongodb'`.

Injected into the model: the application configuration `config($key)` (as
`string -> Value`, null when missing), the container's `make` (given the
number of earlier container calls, so a missing memo would be observable;
it answers either an instance or "threw"), whether PHP counts a built value as empty,
whether a built value implements
`RepositoryInterface`,
`Mongez::packagePath`, the method list of a mixin class
(`get_class_methods`), `runningInConsole()`, and `Mongez::isInstalled()` (a
boolean argument of `Boot`).

Notes on the code as written, which the model follows:
- `register()` gates `manageDatabase()` on `config('database.driver')`, but
  `prepareForFirstTime()` reads `config('database.default')`. Both keys are
  kept as written.
- `manageDatabase()` reads `database.mysql.defaultStringLength` from the
  package's own `mongez` configuration, not from the application's
  `database` configuration.
- `$database != 'mongodb'` is a loose comparison, so a `true` value of
  `database.default` also runs the migration (`Php.LooselyEqualsMongodb`).
- `register()` runs before `boot()`. So repositories, macros and listeners
  are registered before the first-time install. Install and migrate happen
  only in the console.
- The cache hit tests `!empty($repos[$name])` and `!$events` are modelled
  as written: a stored value counts as a hit only when it is not empty. The
  emptiness of a built value is an input (`Env.falsy`). An empty value never
  passes the `RepositoryInterface` return type.

## Model

| member | source | states |
|---|---|---|
| `Helpers.LookupRepository` | src/Helpers/functions.php:107-124 | one `repo(name)` call: a hit (a stored, non-empty value) is answered type-checked with nothing changed; a success answers the value now cached under the name; a TypeError leaves the offending value stored; the other failures store nothing; no other name's entry is added, removed or changed; the Events slot is untouched |
| `Helpers.FetchEvents` | src/Helpers/functions.php:74-82 | one `events()` call: a non-empty slot is answered with the statics unchanged; a success leaves the slot holding the answer; a failure leaves the slot as it was; the repository cache is untouched |
| `Helpers.EventsMissBuilds` | src/Helpers/functions.php:77-81 | on an unset or empty slot, `events()` asks the container for the Events class; it succeeds if and only if the container builds a value, which it then answers and stores; otherwise it answers the container's exception and leaves the slot |
| `Helpers.FunctionStatics.Repo` | src/Helpers/functions.php:107-124 | takes exactly the `LookupRepository` step; a hit (a stored, non-empty value) answers it type-checked and keeps the cache; a success answers the non-empty value cached under the name; a changed cache differs only in the name's entry, and the answer is that entry type-checked; the Events slot is untouched |
| `Helpers.FunctionStatics.Events` | src/Helpers/functions.php:74-82 | takes exactly the `FetchEvents` step; a non-empty slot is answered without calling the container; a success fills the slot with the answer, a failure leaves it as it was; the repository cache is unchanged |
| `Helpers.FunctionStatics.constructor` | src/Helpers/functions.php:76 | a process starts with an empty repository cache and an unset Events slot |
| `Helpers.CacheHitConsultsNothing` | src/Helpers/functions.php:107-113 | a name whose stored value is not empty is answered from the cache, checked against the return type, with the state unchanged: no config read, no container call |
| `Helpers.FalsyBindingThrows` | src/Helpers/functions.php:115-119 | on a miss, the lookup fails with `NotFoundRepositoryException("Call to undefined repository: " + name)` if and only if `mongez.repositories.<name>` is falsy; then cache, container log and Events slot are unchanged |
| `Helpers.SuccessStoresInstance` | src/Helpers/functions.php:107-123 | a miss with a truthy binding that the container builds asks the container once for that binding and stores the instance under the name; it answers the instance if and only if the instance is a `RepositoryInterface`, and otherwise fails with a TypeError, with the instance stored anyway |
| `Helpers.ContainerFailureStoresNothing` | src/Helpers/functions.php:121 | a miss with a truthy binding the container cannot build passes the container's exception on and stores nothing, so the name stays uncached |
| `Helpers.EntriesPersist` | src/Helpers/functions.php:109-123 | over any later sequence of calls, every cache hit and a non-empty Events slot survive unchanged |
| `Helpers.CachedNameAnswersSame` | src/Helpers/functions.php:111-113 | once a name is a cache hit, every later `repo(name)` in any sequence of calls answers that same instance, type-checked the same way (so a cached non-repository raises a TypeError every time) |
| `Helpers.ResolvedRepositoryIsStable` | src/Helpers/functions.php:109-123 | after a successful `repo(name)`, every later `repo(name)` answers the instance that first call returned |
| `Helpers.EventsAnswersSame` | src/Helpers/functions.php:76-81 | once the Events slot holds a non-empty value, every later `events()` answers it |
| `Helpers.ContainerNotAskedAgain` | src/Helpers/functions.php:74-124 | over any process from start-up, once the container has given back a non-empty Events instance or repository value, it is never asked for that entry again; failed and empty builds are retried |
| `Providers.MongezServiceProvider.constructor` | src/Providers/MongezServiceProvider.php:43-48 | a new provider has an empty `config` and has asked nothing of the framework |
| `Providers.MongezServiceProvider.Config` | src/Providers/MongezServiceProvider.php:124-127 | `$this->config($key, $default)` answers the entry of that key when the stored configuration is an array holding it, and the default otherwise |
| `Php.Truthy` | src/Helpers/functions.php:117 | PHP's conversion to bool: exactly null, `false`, `0`, `""`, `"0"` and the empty array are falsy (also used at src/Providers/MongezServiceProvider.php:187) |
| `Php.CastValues` | src/Providers/MongezServiceProvider.php:149-150 | what a `foreach` visits after `(array)`: nothing for null, the values of an array in order, and a scalar as a one-element list |
| `Php.FindFirst` | src/Providers/MongezServiceProvider.php:126 | an array lookup answers the value of the first entry with the key, and nothing exactly when no entry has it |
| `Php.Get` | src/Providers/MongezServiceProvider.php:126 | `Arr::get` over a path of keys: the empty path answers the value itself; a non-array, or an array without the first key, answers the default; a one-key path answers that key's value (also used at line 185) |
| `Providers.MongezServiceProvider.Register` | src/Providers/MongezServiceProvider.php:75-97 | stores `config('mongez')` in the `config` field and appends exactly `RegisterActions` (publish, repository singletons, Events singleton, macros, Events fetch and subscriptions, then the database option only for MySQL) |
| `Providers.MongezServiceProvider.RegisterSingletons` | src/Providers/MongezServiceProvider.php:82-84 | appends one `singleton` per repository entry, in configuration order |
| `Providers.MongezServiceProvider.Boot` | src/Providers/MongezServiceProvider.php:55-68 | appends exactly `BootActions`: nothing outside the console; otherwise the commands, `init`, and the first-time preparation only when not installed |
| `Providers.MongezServiceProvider.PrepareForFirstTime` | src/Providers/MongezServiceProvider.php:104-115 | appends `install`, then the `migrate` call with the package's MongoDB migrations path only when `database.default` loosely equals `'mongodb'` |
| `Providers.MongezServiceProvider.RegisterEventsListeners` | src/Providers/MongezServiceProvider.php:144-154 | appends the fetch of Events, then the subscriptions of the `events` section |
| `Providers.MongezServiceProvider.SubscribeAll` | src/Providers/MongezServiceProvider.php:148-153 | appends, per event entry in order, one subscription per listener of its `(array)` cast |
| `Providers.MongezServiceProvider.SubscribeListeners` | src/Providers/MongezServiceProvider.php:150-152 | appends one `subscribe(event, listener)` per listener, in listener order |
| `Providers.MongezServiceProvider.RegisterMacros` | src/Providers/MongezServiceProvider.php:161-176 | appends the macro registrations of the `macros` section |
| `Providers.MongezServiceProvider.MixinAll` | src/Providers/MongezServiceProvider.php:163-175 | per entry in order: the mixin, then, only when the original is the query builder, its methods on the Eloquent builder |
| `Providers.MongezServiceProvider.MirrorOnEloquent` | src/Providers/MongezServiceProvider.php:170-173 | appends one Eloquent macro per mixin method, in method order |
| `Providers.MongezServiceProvider.ManageDatabase` | src/Providers/MongezServiceProvider.php:183-190 | sets the default string length only when the configured `database.mysql.defaultStringLength` is truthy, and then to that value |
| `ProviderProperties.SubscriptionsConcat` | src/Providers/MongezServiceProvider.php:148-153 | the subscriptions of two consecutive runs of event entries are those of the first followed by those of the second: configuration order is kept |
| `ProviderProperties.SubscriptionsCount` | src/Providers/MongezServiceProvider.php:148-153 | the number of subscriptions equals the number of configured (event, listener) pairs after the cast; nothing is deduplicated |
| `ProviderProperties.SubscriptionPosition` | src/Providers/MongezServiceProvider.php:148-153 | the j-th listener of the i-th event is subscribed right after all listeners of earlier events: events in configuration order, then listeners in their own order |
| `ProviderProperties.SubscriptionsMembership` | src/Providers/MongezServiceProvider.php:148-153 | `subscribe(e, l)` is issued if and only if some entry for event `e` lists `l` |
| `ProviderProperties.ScalarListenersAreLists` | src/Providers/MongezServiceProvider.php:149 | wrapping every scalar listener into a one-element list leaves the subscriptions unchanged |
| `ProviderProperties.NullListenerSubscribesNothing` | src/Providers/MongezServiceProvider.php:149 | an event configured with null adds no subscription |
| `ProviderProperties.MissingEventsSubscribeNothing` | src/Providers/MongezServiceProvider.php:148 | when the package configuration has no `events` key, `register()` issues no subscription at all |
| `ProviderProperties.MacrosCount` | src/Providers/MongezServiceProvider.php:163-175 | one mixin per `macros` entry, plus one Eloquent macro per method of each mixin configured for the query builder |
| `ProviderProperties.MixinMembership` | src/Providers/MongezServiceProvider.php:163-165 | `original::mixin(mixin)` is applied if and only if `(original, mixin)` is a configured entry |
| `ProviderProperties.EloquentMacrosMembership` | src/Providers/MongezServiceProvider.php:170-173 | mirroring one mixin registers `macro(name)` for that mixin if and only if `name` is one of its methods |
| `ProviderProperties.BlockMirrors` | src/Providers/MongezServiceProvider.php:163-175 | one `macros` entry mirrors a method onto the Eloquent builder if and only if its original is the query builder and the method is its mixin's |
| `ProviderProperties.EloquentMirrorMembership` | src/Providers/MongezServiceProvider.php:169-174 | a method is registered on the Eloquent builder if and only if it belongs to a mixin configured for the query builder |
| `ProviderProperties.RegisterIsPhaseOrdered` | src/Providers/MongezServiceProvider.php:77-96 | the `register()` log is ordered by stage: publish, singletons, macros, Events fetch, subscriptions, database option |
| `ProviderProperties.MacrosBeforeListeners` | src/Providers/MongezServiceProvider.php:88-91 | every macro registration comes before every event subscription |
| `ProviderProperties.RegisterSingletonOrder` | src/Providers/MongezServiceProvider.php:82-86 | right after publishing, each repository class becomes a singleton in configuration order, followed by the Events class |
| `ProviderProperties.RegisterSingletonsExactly` | src/Providers/MongezServiceProvider.php:82-86 | `register()` makes a singleton of `x` if and only if `x` is the Events class or a configured repository class |
| `ProviderProperties.RegisterSubscribes` | src/Providers/MongezServiceProvider.php:91 | `register()` subscribes `(e, l)` if and only if the `events` configuration pairs them |
| `ProviderProperties.DatabaseOptionGate` | src/Providers/MongezServiceProvider.php:93-96 | the string length is set, to `v`, if and only if the driver lowercases to `mysql` and the configured length `v` is truthy (lines 185-189) |
| `Php.DriverIsMysql` | src/Providers/MongezServiceProvider.php:93 | `strtolower($v) === 'mysql'` holds exactly for the strings of length five that spell `mysql` in any mix of upper and lower case; no other value passes |
| `ProviderProperties.BootGates` | src/Providers/MongezServiceProvider.php:55-68 | outside the console `boot()` does nothing; in it: commands, then init; install if and only if not installed; migrate if and only if also `database.default` loosely equals `'mongodb'`, with the package's migrations path; install before migrate |
| `Php.LooselyEqualsMongodb` | src/Providers/MongezServiceProvider.php:108-110 | PHP 8's `$database == 'mongodb'` holds exactly for the string `mongodb` (case-sensitive) and for `true` |

## Left out

- The Laravel container, the config loader, `Schema`, `Artisan`,
  `publishes`/`config_path` and the command classes are framework code.
  They appear only as logged actions or injected functions. On the provider
  side their failures are not modelled: the container building `Events`
  for a subscription, and `subscribe` itself, are assumed to succeed.
- `events()` returns whatever the container builds for the Events class.
  The check against its declared return type `Events` is not modelled.
- `Mongez::init`, `install`, `isInstalled` and `packagePath` are not part of
  this model. "Installed" is an input of `Boot`, and the marker that
  `install` persists is not modelled. So the property "a second bootstrap
  skips installation" is not stated.
- `is_json`, `to_json`, `array_remove`, `str_remove_first`, `user`, `pre` and
  `pred` are thin wrappers over JSON, `Arr`/`Str`, request and output calls
  whose behaviour is not shown.
- `registerMacros` creates mixin objects, reflects on their methods and binds
  closures. A mixin is modelled only by the list of its method names. A
  class that does not exist, or a non-string class name, would throw in PHP;
  the model treats every entry as applicable.
- The Events class's `subscribe`/`fire` is not shown. Dispatch order and the
  failure policy for listeners are not modelled.
- Configuration keys are strings. PHP's integer array keys are not modelled.
  `Arr::get` is modelled segment by segment, without its first check for a
  literal dotted key and without the `??` fallback for keys without dots.
  The repository lookup in `repo()` is an opaque
  `config("mongez.repositories." + name)`.
- A `foreach` over a non-array visits nothing. The PHP warning it emits,
  which Laravel may turn into an exception, is not modelled. Neither is the
  `TypeError` of `strtolower` on an array driver. Nor is the PHP 8.1
  deprecation notice of `strtolower(null)` when `database.driver` is
  missing, which the framework's error handler may turn into an
  `ErrorException`. The model treats a missing driver as "not mysql". Floats are not modelled.
- `Providers.MongezServiceProvider.Config`: its contract covers keys without
  dots only; that is how `register()` and its helpers call it.
- `Php.LooselyEqualsMongodb`: it follows PHP 8's comparison of a string
  with a non-numeric string. Under PHP 7, `0 == 'mongodb'` also holds, so
  an integer `0` in `database.default` would run the migration there.
  Nothing in the source fixes the PHP version.
- Concurrency: the source is single-threaded per request.
