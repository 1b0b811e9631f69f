/**
  The registration sequence of src/Providers/MongezServiceProvider.php.

  Everything the provider asks of the framework is recorded, in order, as an
  `Action` in the provider's log: container singletons, mixins and macros,
  event subscriptions, the schema option, console commands, installation and
  the migration run. The framework's answers are injected: the application
  configuration (`config($key)`, null when missing), the package path
  resolver (`Mongez::packagePath`), the method names of a mixin class
  (`get_class_methods(new $mixin)`), whether the process runs in the console,
  and, at boot, whether the package is installed.
 */
module Providers {
  import opened Php
  import Helpers

  const QueryBuilderClass: string := "Illuminate\\Database\\Query\\Builder"
  const ConfigFile: string := "files/config/mongez.php"
  const PublishedConfig: string := "mongez.php"
  const MongodbMigrations: string := "src/Database/migrations/mongodb"

  /** `COMMANDS_LIST`: the package's console commands, in registration order. */
  const CommandsList: seq<string> := [
    "HZ\\Illuminate\\Mongez\\Console\\Commands\\EngezModel",
    "HZ\\Illuminate\\Mongez\\Console\\Commands\\EngezMigrate",
    "HZ\\Illuminate\\Mongez\\Console\\Commands\\ModuleBuilder",
    "HZ\\Illuminate\\Mongez\\Console\\Commands\\EngezResource",
    "HZ\\Illuminate\\Mongez\\Console\\Commands\\DatabaseMaker",
    "HZ\\Illuminate\\Mongez\\Console\\Commands\\EngezMigration",
    "HZ\\Illuminate\\Mongez\\Console\\Commands\\EngezController",
    "HZ\\Illuminate\\Mongez\\Console\\Commands\\EngezRepository",
    "HZ\\Illuminate\\Mongez\\Console\\Commands\\CloneModuleBuilder"
  ]

  /** One request the provider makes of the framework. */
  datatype Action =
    | Publish(source: string, target: string)       // $this->publishes([...])
    | Singleton(binding: Value)                     // $this->app->singleton($class)
    | Mixin(original: string, mixin: Value)         // $original::mixin(new $mixin)
    | EloquentMacro(name: string, mixin: Value)   // EloquentBuilder::macro($method, ...)
    | MakeEvents                                    // $this->app->make(Events::class)
    | Subscribe(event: string, listener: Value)     // $events->subscribe($name, $listener)
    | DefaultStringLength(length: Value)            // Schema::defaultStringLength($length)
    | Commands(classes: seq<string>)                // $this->commands(COMMANDS_LIST)
    | Init                                          // Mongez::init()
    | Install                                       // Mongez::install()
    | Migrate(path: string)                         // Artisan::call('migrate', ['--path' => $path])

  // ---- register() ---------------------------------------------------------

  /** One container singleton per value of the `repositories` entries. */
  function RepositorySingletons(es: seq<(string, Value)>): seq<Action> {
    if es == [] then []
    else RepositorySingletons(es[..|es| - 1]) + [Singleton(es[|es| - 1].1)]
  }

  /** One Eloquent macro per mixin method, in method order. */
  function EloquentMacros(methods: seq<string>, mixin: Value): seq<Action> {
    if methods == [] then []
    else EloquentMacros(methods[..|methods| - 1], mixin) + [EloquentMacro(methods[|methods| - 1], mixin)]
  }

  /** What one `macros` entry registers: the mixin, then, for the query
      builder only, each of its methods on the Eloquent builder. */
  function MacroBlock(original: string, mixin: Value, classMethods: Value -> seq<string>): seq<Action> {
    [Mixin(original, mixin)]
    + (if original == QueryBuilderClass then EloquentMacros(classMethods(mixin), mixin) else [])
  }

  function Macros(es: seq<(string, Value)>, classMethods: Value -> seq<string>): seq<Action> {
    if es == [] then []
    else Macros(es[..|es| - 1], classMethods) + MacroBlock(es[|es| - 1].0, es[|es| - 1].1, classMethods)
  }

  /** One subscription of `event` per listener, in listener order. */
  function Listeners(event: string, ls: seq<Value>): seq<Action> {
    if ls == [] then []
    else Listeners(event, ls[..|ls| - 1]) + [Subscribe(event, ls[|ls| - 1])]
  }

  /** The subscriptions of the `events` entries, each value cast `(array)`. */
  function Subscriptions(es: seq<(string, Value)>): seq<Action> {
    if es == [] then []
    else Subscriptions(es[..|es| - 1]) + Listeners(es[|es| - 1].0, CastValues(es[|es| - 1].1))
  }

  /** Extending a prefix of the `macros` entries by one entry appends that
      entry's block. */
  lemma MacrosExtend(es: seq<(string, Value)>, i: nat, classMethods: Value -> seq<string>)
    requires i < |es|
    ensures Macros(es[..i + 1], classMethods) == Macros(es[..i], classMethods) + MacroBlock(es[i].0, es[i].1, classMethods)
  {
    assert es[..i + 1][..i] == es[..i];
  }

  /** Extending a prefix of the `events` entries by one entry appends that
      entry's subscriptions. */
  lemma SubscriptionsExtend(es: seq<(string, Value)>, i: nat)
    requires i < |es|
    ensures Subscriptions(es[..i + 1]) == Subscriptions(es[..i]) + Listeners(es[i].0, CastValues(es[i].1))
  {
    assert es[..i + 1][..i] == es[..i];
  }

  /** Appending seven pieces one after another appends their concatenation. */
  lemma AppendChain<T>(
    l0: seq<T>, l1: seq<T>, l2: seq<T>, l3: seq<T>, l4: seq<T>, l5: seq<T>, l6: seq<T>,
    a: seq<T>, b: seq<T>, c: seq<T>, d: seq<T>, e: seq<T>, f: seq<T>, g: seq<T>)
    requires l1 == l0 + a && l2 == l1 + b && l3 == l2 + c && l4 == l3 + d
    requires l5 == l4 + e + f && l6 == l5 + g
    ensures l6 == l0 + (a + b + c + d + e + f + g)
  {
  }

  lemma Assoc<T>(x: seq<T>, y: seq<T>, z: seq<T>)
    ensures (x + y) + z == x + (y + z)
  {
  }

  /** In `p + l + r`, the j-th element of `l` sits at `|p| + j`. */
  lemma IndexInMiddle<T>(p: seq<T>, l: seq<T>, r: seq<T>, j: nat)
    requires j < |l|
    ensures |p| + j < |p + l + r| && (p + l + r)[|p| + j] == l[j]
  {
  }

  /** Appending pieces keeps the elements of a prefix where they are. */
  lemma PrefixKept<T>(p: seq<T>, a: seq<T>, b: seq<T>, c: seq<T>, d: seq<T>)
    ensures |p + a + b + c + d| >= |p|
    ensures forall k :: 0 <= k < |p| ==> (p + a + b + c + d)[k] == p[k]
  {
  }

  /** `database.mysql.defaultStringLength` of the package configuration. */
  function StringLength(mongez: Value): Value {
    Get(mongez, ["database", "mysql", "defaultStringLength"], Null)
  }

  /** manageDatabase(): the string length is set only when configured truthy. */
  function DatabaseOptions(mongez: Value): seq<Action> {
    if Truthy(StringLength(mongez)) then [DefaultStringLength(StringLength(mongez))] else []
  }

  /** `$this->config($key, [])`: the entries of a top-level section of the
      package configuration. */
  function Section(mongez: Value, key: string): seq<(string, Value)> {
    Entries(Get(mongez, [key], Arr([])))
  }

  /** The parts of the configuration register() acts on. */
  datatype Settings = Settings(
    repositories: seq<(string, Value)>,   // mongez.repositories
    macros: seq<(string, Value)>,         // mongez.macros
    events: seq<(string, Value)>,         // mongez.events
    mysql: bool,                          // strtolower(database.driver) === 'mysql'
    stringLength: Value)                  // mongez.database.mysql.defaultStringLength

  function SettingsOf(appConfig: string -> Value): Settings {
    var mongez := appConfig("mongez");
    Settings(
      Section(mongez, "repositories"), Section(mongez, "macros"), Section(mongez, "events"),
      DriverIsMysql(appConfig("database.driver")), StringLength(mongez))
  }

  /** Everything register() asks of the framework, in order, given the
      published file's source path and the settings. */
  function RegisterLog(source: string, s: Settings, classMethods: Value -> seq<string>): seq<Action> {
    [Publish(source, PublishedConfig)]
    + RepositorySingletons(s.repositories)
    + [Singleton(Str(Helpers.EventsClass))]
    + Macros(s.macros, classMethods)
    + [MakeEvents]
    + Subscriptions(s.events)
    + (if s.mysql && Truthy(s.stringLength) then [DefaultStringLength(s.stringLength)] else [])
  }

  function RegisterActions(
    appConfig: string -> Value, packagePath: string -> string, classMethods: Value -> seq<string>)
    : seq<Action>
  {
    RegisterLog(packagePath(ConfigFile), SettingsOf(appConfig), classMethods)
  }

  // ---- boot() -------------------------------------------------------------

  /** prepareForFirstTime(): install, then migrate only for MongoDB. */
  function FirstTimeActions(appConfig: string -> Value, packagePath: string -> string): seq<Action> {
    [Install]
    + (if LooselyEqualsMongodb(appConfig("database.default"))
       then [Migrate(packagePath(MongodbMigrations))] else [])
  }

  /** Everything boot() asks of the framework, in order. */
  function BootActions(
    inConsole: bool, installed: bool, appConfig: string -> Value, packagePath: string -> string)
    : seq<Action>
  {
    if !inConsole then []
    else [Commands(CommandsList), Init] + (if installed then [] else FirstTimeActions(appConfig, packagePath))
  }

  /**
    The service provider: its `$config` field and the log of what it has
    asked of the framework.
   */
  class MongezServiceProvider {
    const appConfig: string -> Value
    const packagePath: string -> string
    const classMethods: Value -> seq<string>
    const runningInConsole: bool
    var config: Value
    var log: seq<Action>

    constructor (
      appConfig: string -> Value, packagePath: string -> string,
      classMethods: Value -> seq<string>, runningInConsole: bool)
      ensures this.appConfig == appConfig && this.packagePath == packagePath
      ensures this.classMethods == classMethods && this.runningInConsole == runningInConsole
      ensures config == Arr([]) && log == []
    {
      this.appConfig := appConfig;
      this.packagePath := packagePath;
      this.classMethods := classMethods;
      this.runningInConsole := runningInConsole;
      config := Arr([]);
      log := [];
    }

    /** `$this->config($key, $default)` for a key without dots: the entry of
        that name when the stored configuration is an array holding it, and
        `default` otherwise. */
    function Config(key: string, default: Value): (r: Value)
      reads this
      ensures config.Arr? && Find(config.entries, key).Some? ==> r == Find(config.entries, key).value
      ensures !config.Arr? || Find(config.entries, key).None? ==> r == default
    {
      assert [key][1..] == [];
      assert config.Arr? && Find(config.entries, key).Some? ==>
        Get(config, [key], default) == Get(Find(config.entries, key).value, [], default);
      Get(config, [key], default)
    }

    method Boot(installed: bool)
      modifies this`log
      ensures log == old(log) + BootActions(runningInConsole, installed, appConfig, packagePath)
    {
      if !runningInConsole {
        return;
      }
      log := log + [Commands(CommandsList)];
      log := log + [Init];
      if !installed {
        PrepareForFirstTime();
      }
    }

    method Register()
      modifies this
      ensures config == appConfig("mongez")
      ensures log == old(log) + RegisterActions(appConfig, packagePath, classMethods)
    {
      ghost var l0 := log;
      log := log + [Publish(packagePath(ConfigFile), PublishedConfig)];
      config := appConfig("mongez");
      ghost var l1 := log;
      RegisterSingletons(Entries(Config("repositories", Arr([]))));
      ghost var l2 := log;
      log := log + [Singleton(Str(Helpers.EventsClass))];
      ghost var l3 := log;
      RegisterMacros();
      ghost var l4 := log;
      RegisterEventsListeners();
      ghost var l5 := log;
      if DriverIsMysql(appConfig("database.driver")) {
        ManageDatabase();
      }
      ghost var s := SettingsOf(appConfig);
      AppendChain(l0, l1, l2, l3, l4, l5, log,
        [Publish(packagePath(ConfigFile), PublishedConfig)],
        RepositorySingletons(s.repositories),
        [Singleton(Str(Helpers.EventsClass))],
        Macros(s.macros, classMethods),
        [MakeEvents],
        Subscriptions(s.events),
        if s.mysql && Truthy(s.stringLength) then [DefaultStringLength(s.stringLength)] else []);
    }

    /** The `foreach` of register(): every configured repository class
        becomes a container singleton. */
    method RegisterSingletons(repositories: seq<(string, Value)>)
      modifies this`log
      ensures log == old(log) + RepositorySingletons(repositories)
    {
      for i := 0 to |repositories|
        invariant log == old(log) + RepositorySingletons(repositories[..i])
      {
        assert repositories[..i + 1][..i] == repositories[..i];
        log := log + [Singleton(repositories[i].1)];
      }
      assert repositories[..|repositories|] == repositories;
    }

    method PrepareForFirstTime()
      modifies this`log
      ensures log == old(log) + FirstTimeActions(appConfig, packagePath)
    {
      log := log + [Install];
      var database := appConfig("database.default");
      if !LooselyEqualsMongodb(database) {
        return;
      }
      var path := packagePath(MongodbMigrations);
      log := log + [Migrate(path)];
    }

    method RegisterEventsListeners()
      modifies this`log
      ensures log == old(log) + [MakeEvents] + Subscriptions(Entries(Config("events", Arr([]))))
    {
      log := log + [MakeEvents];
      SubscribeAll(Entries(Config("events", Arr([]))));
    }

    /** The two `foreach` loops of registerEventsListeners(): one subscription
        per listener of each event, after the `(array)` cast. */
    method SubscribeAll(events: seq<(string, Value)>)
      modifies this`log
      ensures log == old(log) + Subscriptions(events)
    {
      for i := 0 to |events|
        invariant log == old(log) + Subscriptions(events[..i])
      {
        SubscriptionsExtend(events, i);
        ghost var sofar := Subscriptions(events[..i]);
        SubscribeListeners(events[i].0, CastValues(events[i].1));
        Assoc(old(log), sofar, Listeners(events[i].0, CastValues(events[i].1)));
      }
      assert events[..|events|] == events;
    }

    /** The inner `foreach` of registerEventsListeners(). */
    method SubscribeListeners(eventName: string, eventListeners: seq<Value>)
      modifies this`log
      ensures log == old(log) + Listeners(eventName, eventListeners)
    {
      for j := 0 to |eventListeners|
        invariant log == old(log) + Listeners(eventName, eventListeners[..j])
      {
        assert eventListeners[..j + 1][..j] == eventListeners[..j];
        log := log + [Subscribe(eventName, eventListeners[j])];
      }
      assert eventListeners[..|eventListeners|] == eventListeners;
    }

    method RegisterMacros()
      modifies this`log
      ensures log == old(log) + Macros(Entries(Config("macros", Arr([]))), classMethods)
    {
      MixinAll(Entries(Config("macros", Arr([]))));
    }

    /** The `foreach` of registerMacros(): apply each mixin, and mirror the
        query builder's onto the Eloquent builder one method at a time. */
    method MixinAll(macros: seq<(string, Value)>)
      modifies this`log
      ensures log == old(log) + Macros(macros, classMethods)
    {
      for i := 0 to |macros|
        invariant log == old(log) + Macros(macros[..i], classMethods)
      {
        var (original, mixin) := macros[i];
        ghost var before := log;
        log := log + [Mixin(original, mixin)];
        if original == QueryBuilderClass {
          MirrorOnEloquent(classMethods(mixin), mixin);
          Assoc(before, [Mixin(original, mixin)], EloquentMacros(classMethods(mixin), mixin));
        } else {
          assert [Mixin(original, mixin)] + [] == [Mixin(original, mixin)];
        }
        MacrosExtend(macros, i, classMethods);
        Assoc(old(log), Macros(macros[..i], classMethods), MacroBlock(original, mixin, classMethods));
      }
      assert macros[..|macros|] == macros;
    }

    /** The inner `foreach` of registerMacros(): one Eloquent macro per
        method of the mixin. */
    method MirrorOnEloquent(methods: seq<string>, mixin: Value)
      modifies this`log
      ensures log == old(log) + EloquentMacros(methods, mixin)
    {
      for j := 0 to |methods|
        invariant log == old(log) + EloquentMacros(methods[..j], mixin)
      {
        assert methods[..j + 1][..j] == methods[..j];
        log := log + [EloquentMacro(methods[j], mixin)];
      }
      assert methods[..|methods|] == methods;
    }

    method ManageDatabase()
      modifies this`log
      ensures log == old(log) + DatabaseOptions(config)
    {
      var defaultLength := Get(config, ["database", "mysql", "defaultStringLength"], Null);
      if Truthy(defaultLength) {
        log := log + [DefaultStringLength(defaultLength)];
      }
    }
  }
}
