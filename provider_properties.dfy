/**
  What the registration sequence guarantees, stated over the action lists of
  the Providers module and proved from their definitions.
 */
module ProviderProperties {
  import opened Php
  import opened Providers
  import Helpers

  // ---- event subscriptions ------------------------------------------------

  lemma {:induction false} ListenersAt(event: string, ls: seq<Value>)
    ensures |Listeners(event, ls)| == |ls|
    ensures forall j :: 0 <= j < |ls| ==> Listeners(event, ls)[j] == Subscribe(event, ls[j])
    decreases |ls|
  {
    if ls != [] {
      ListenersAt(event, ls[..|ls| - 1]);
    }
  }

  /** Subscriptions follow the order of the `events` entries: those of a
      concatenation are those of its parts, one after the other. */
  lemma {:induction false} SubscriptionsConcat(a: seq<(string, Value)>, b: seq<(string, Value)>)
    ensures Subscriptions(a + b) == Subscriptions(a) + Subscriptions(b)
    decreases |b|
  {
    if b == [] {
      assert a + b == a;
    } else {
      var init, last := b[..|b| - 1], b[|b| - 1];
      assert b == init + [last];
      assert a + b == (a + init) + [last];
      SubscriptionsStep(a + init, last);
      SubscriptionsStep(init, last);
      SubscriptionsConcat(a, init);
      Assoc(Subscriptions(a), Subscriptions(init), Listeners(last.0, CastValues(last.1)));
    }
  }

  lemma SubscriptionsStep(init: seq<(string, Value)>, x: (string, Value))
    ensures Subscriptions(init + [x]) == Subscriptions(init) + Listeners(x.0, CastValues(x.1))
  {
    assert (init + [x])[..|init|] == init;
  }

  /** The number of listeners configured, counted entry by entry after the
      `(array)` cast. */
  function ListenerTotal(es: seq<(string, Value)>): nat {
    if es == [] then 0 else |CastValues(es[0].1)| + ListenerTotal(es[1..])
  }

  lemma SubscriptionsOfOne(x: (string, Value))
    ensures Subscriptions([x]) == Listeners(x.0, CastValues(x.1))
  {
    assert [x][..0] == [];
  }

  /** Exactly one subscription per configured (event, listener) pair, with no
      deduplication. */
  lemma {:induction false} SubscriptionsCount(es: seq<(string, Value)>)
    ensures |Subscriptions(es)| == ListenerTotal(es)
    decreases |es|
  {
    if es != [] {
      assert es == [es[0]] + es[1..];
      SubscriptionsConcat([es[0]], es[1..]);
      SubscriptionsOfOne(es[0]);
      ListenersAt(es[0].0, CastValues(es[0].1));
      SubscriptionsCount(es[1..]);
    }
  }

  /** The j-th listener of the i-th event is subscribed at position
      (listeners of the earlier events) + j: events in configuration order,
      then listeners in their own order. */
  lemma SubscriptionPosition(es: seq<(string, Value)>, i: nat, j: nat)
    requires i < |es| && j < |CastValues(es[i].1)|
    ensures |Subscriptions(es[..i])| + j < |Subscriptions(es)|
    ensures Subscriptions(es)[|Subscriptions(es[..i])| + j] == Subscribe(es[i].0, CastValues(es[i].1)[j])
  {
    var before, rest := es[..i + 1], es[i + 1..];
    assert es == before + rest;
    SubscriptionsExtend(es, i);
    SubscriptionsConcat(before, rest);
    ListenersAt(es[i].0, CastValues(es[i].1));
    IndexInMiddle(Subscriptions(es[..i]), Listeners(es[i].0, CastValues(es[i].1)), Subscriptions(rest), j);
  }

  /** Every configured pair is subscribed. */
  lemma {:induction false} SubscriptionsComplete(es: seq<(string, Value)>, i: nat, listener: Value)
    requires i < |es| && listener in CastValues(es[i].1)
    ensures Subscribe(es[i].0, listener) in Subscriptions(es)
  {
    var j :| 0 <= j < |CastValues(es[i].1)| && CastValues(es[i].1)[j] == listener;
    SubscriptionPosition(es, i, j);
  }

  /** Nothing but configured pairs is subscribed. */
  lemma {:induction false} SubscriptionsSound(es: seq<(string, Value)>, event: string, listener: Value)
    requires Subscribe(event, listener) in Subscriptions(es)
    ensures exists i :: 0 <= i < |es| && es[i].0 == event && listener in CastValues(es[i].1)
    decreases |es|
  {
    var init, last := es[..|es| - 1], es[|es| - 1];
    if Subscribe(event, listener) in Subscriptions(init) {
      SubscriptionsSound(init, event, listener);
      var i :| 0 <= i < |init| && init[i].0 == event && listener in CastValues(init[i].1);
      assert es[i] == init[i];
    } else {
      ListenersAt(last.0, CastValues(last.1));
      var j :| 0 <= j < |CastValues(last.1)| && Listeners(last.0, CastValues(last.1))[j] == Subscribe(event, listener);
      assert es[|es| - 1].0 == event && listener in CastValues(es[|es| - 1].1);
    }
  }

  /** A subscription is issued exactly for the configured pairs. */
  lemma SubscriptionsMembership(es: seq<(string, Value)>, event: string, listener: Value)
    ensures Subscribe(event, listener) in Subscriptions(es)
            <==> exists i :: 0 <= i < |es| && es[i].0 == event && listener in CastValues(es[i].1)
  {
    if exists i :: 0 <= i < |es| && es[i].0 == event && listener in CastValues(es[i].1) {
      var i :| 0 <= i < |es| && es[i].0 == event && listener in CastValues(es[i].1);
      SubscriptionsComplete(es, i, listener);
    }
    if Subscribe(event, listener) in Subscriptions(es) {
      SubscriptionsSound(es, event, listener);
    }
  }

  /** A listener given as a scalar, wrapped into a one-element list. */
  function AsList(v: Value): Value {
    if v.Null? || v.Arr? then v else Arr([("0", v)])
  }

  function Normalised(es: seq<(string, Value)>): (r: seq<(string, Value)>)
    ensures |r| == |es|
    ensures forall i :: 0 <= i < |es| ==> r[i] == (es[i].0, AsList(es[i].1))
  {
    seq(|es|, i requires 0 <= i < |es| => (es[i].0, AsList(es[i].1)))
  }

  lemma CastOfWrapped(v: Value)
    ensures CastValues(AsList(v)) == CastValues(v)
  {
    if !v.Null? && !v.Arr? {
      assert ValuesOf([("0", v)]) == [v];
    }
  }

  /** The `(array)` cast: a scalar listener yields the same subscriptions as
      the one-element list holding it. */
  lemma {:induction false} ScalarListenersAreLists(es: seq<(string, Value)>)
    ensures Subscriptions(Normalised(es)) == Subscriptions(es)
    decreases |es|
  {
    if es != [] {
      var n := |es|;
      assert Normalised(es)[..n - 1] == Normalised(es[..n - 1]);
      CastOfWrapped(es[n - 1].1);
      ScalarListenersAreLists(es[..n - 1]);
    }
  }

  /** An event configured with null subscribes nothing. */
  lemma {:induction false} NullListenerSubscribesNothing(es: seq<(string, Value)>, event: string)
    ensures Subscriptions(es + [(event, Null)]) == Subscriptions(es)
  {
    SubscriptionsConcat(es, [(event, Null)]);
    SubscriptionsOfOne((event, Null));
  }

  // ---- macros -------------------------------------------------------------

  lemma {:induction false} EloquentMacrosAt(methods: seq<string>, mixin: Value)
    ensures |EloquentMacros(methods, mixin)| == |methods|
    ensures forall j :: 0 <= j < |methods| ==> EloquentMacros(methods, mixin)[j] == EloquentMacro(methods[j], mixin)
    decreases |methods|
  {
    if methods != [] {
      EloquentMacrosAt(methods[..|methods| - 1], mixin);
    }
  }

  lemma {:induction false} MacrosConcat(a: seq<(string, Value)>, b: seq<(string, Value)>, classMethods: Value -> seq<string>)
    ensures Macros(a + b, classMethods) == Macros(a, classMethods) + Macros(b, classMethods)
    decreases |b|
  {
    if b == [] {
      assert a + b == a;
    } else {
      var init, last := b[..|b| - 1], b[|b| - 1];
      assert b == init + [last];
      assert a + b == (a + init) + [last];
      MacrosStep(a + init, last, classMethods);
      MacrosStep(init, last, classMethods);
      MacrosConcat(a, init, classMethods);
      Assoc(Macros(a, classMethods), Macros(init, classMethods), MacroBlock(last.0, last.1, classMethods));
    }
  }

  lemma MacrosStep(init: seq<(string, Value)>, x: (string, Value), classMethods: Value -> seq<string>)
    ensures Macros(init + [x], classMethods) == Macros(init, classMethods) + MacroBlock(x.0, x.1, classMethods)
  {
    assert (init + [x])[..|init|] == init;
  }

  /** The number of Eloquent macros the query-builder entries add. */
  function MirroredTotal(es: seq<(string, Value)>, classMethods: Value -> seq<string>): nat {
    if es == [] then 0
    else (if es[0].0 == QueryBuilderClass then |classMethods(es[0].1)| else 0)
         + MirroredTotal(es[1..], classMethods)
  }

  /** One mixin per `macros` entry, plus one Eloquent macro per method of
      every mixin applied to the query builder. */
  lemma {:induction false} MacrosCount(es: seq<(string, Value)>, classMethods: Value -> seq<string>)
    ensures |Macros(es, classMethods)| == |es| + MirroredTotal(es, classMethods)
    decreases |es|
  {
    if es != [] {
      assert es == [es[0]] + es[1..];
      MacrosConcat([es[0]], es[1..], classMethods);
      assert [es[0]][..0] == [];
      EloquentMacrosAt(classMethods(es[0].1), es[0].1);
      MacrosCount(es[1..], classMethods);
    }
  }

  /** `original::mixin(mixin)` is applied exactly for the configured pairs. */
  lemma {:induction false} MixinMembership(
    es: seq<(string, Value)>, classMethods: Value -> seq<string>, original: string, mixin: Value)
    ensures Mixin(original, mixin) in Macros(es, classMethods) <==> (original, mixin) in es
    decreases |es|
  {
    if es != [] {
      var init, last := es[..|es| - 1], es[|es| - 1];
      MixinMembership(init, classMethods, original, mixin);
      EloquentMacrosAt(classMethods(last.1), last.1);
      assert es == init + [last];
      if (original, mixin) in es && (original, mixin) !in init {
        assert Macros(es, classMethods)[|Macros(init, classMethods)|] == Mixin(original, mixin);
      }
    }
  }

  /** The Eloquent macros mirrored from one mixin name exactly its methods. */
  lemma {:induction false} EloquentMacrosMembership(methods: seq<string>, m: Value, name: string, mixin: Value)
    ensures EloquentMacro(name, mixin) in EloquentMacros(methods, m) <==> m == mixin && name in methods
    decreases |methods|
  {
    if methods != [] {
      var init := methods[..|methods| - 1];
      EloquentMacrosMembership(init, m, name, mixin);
      assert methods == init + [methods[|methods| - 1]];
    }
  }

  /** What one `macros` entry mirrors onto the Eloquent builder. */
  lemma BlockMirrors(original: string, m: Value, classMethods: Value -> seq<string>, name: string, mixin: Value)
    ensures EloquentMacro(name, mixin) in MacroBlock(original, m, classMethods)
            <==> original == QueryBuilderClass && m == mixin && name in classMethods(m)
  {
    EloquentMacrosMembership(classMethods(m), m, name, mixin);
  }

  /** A method is registered on the Eloquent builder exactly when it belongs
      to a mixin configured for the query builder. */
  lemma {:induction false} EloquentMirrorMembership(
    es: seq<(string, Value)>, classMethods: Value -> seq<string>, name: string, mixin: Value)
    ensures EloquentMacro(name, mixin) in Macros(es, classMethods)
            <==> (QueryBuilderClass, mixin) in es && name in classMethods(mixin)
    decreases |es|
  {
    if es != [] {
      var init, last := es[..|es| - 1], es[|es| - 1];
      EloquentMirrorMembership(init, classMethods, name, mixin);
      BlockMirrors(last.0, last.1, classMethods, name, mixin);
      assert es == init + [last];
    }
  }

  // ---- the order of register() --------------------------------------------

  /** The stage of the lifecycle an action belongs to. */
  function Phase(a: Action): nat {
    match a
    case Publish(_, _) => 0
    case Singleton(_) => 1
    case Mixin(_, _) => 2
    case EloquentMacro(_, _) => 2
    case MakeEvents => 3
    case Subscribe(_, _) => 4
    case DefaultStringLength(_) => 5
    case Commands(_) => 6
    case Init => 7
    case Install => 8
    case Migrate(_) => 9
  }

  ghost predicate InPhase(s: seq<Action>, p: nat) {
    forall i :: 0 <= i < |s| ==> Phase(s[i]) == p
  }

  ghost predicate PhaseOrdered(s: seq<Action>) {
    forall i, j :: 0 <= i < j < |s| ==> Phase(s[i]) <= Phase(s[j])
  }

  lemma {:induction false} RepositorySingletonsAt(es: seq<(string, Value)>)
    ensures |RepositorySingletons(es)| == |es|
    ensures forall i :: 0 <= i < |es| ==> RepositorySingletons(es)[i] == Singleton(es[i].1)
    decreases |es|
  {
    if es != [] {
      RepositorySingletonsAt(es[..|es| - 1]);
    }
  }

  lemma {:induction false} MacrosInPhase(es: seq<(string, Value)>, classMethods: Value -> seq<string>)
    ensures InPhase(Macros(es, classMethods), 2)
    decreases |es|
  {
    if es != [] {
      var last := es[|es| - 1];
      MacrosInPhase(es[..|es| - 1], classMethods);
      EloquentMacrosAt(classMethods(last.1), last.1);
    }
  }

  lemma {:induction false} SubscriptionsInPhase(es: seq<(string, Value)>)
    ensures InPhase(Subscriptions(es), 4)
    decreases |es|
  {
    if es != [] {
      var last := es[|es| - 1];
      SubscriptionsInPhase(es[..|es| - 1]);
      ListenersAt(last.0, CastValues(last.1));
    }
  }

  /** Appending a piece of one later phase keeps a log in phase order. */
  lemma AppendPhase(s: seq<Action>, t: seq<Action>, p: nat)
    requires PhaseOrdered(s) && InPhase(t, p)
    requires forall i :: 0 <= i < |s| ==> Phase(s[i]) <= p
    ensures PhaseOrdered(s + t)
    ensures forall i :: 0 <= i < |s + t| ==> Phase((s + t)[i]) <= p
  {
  }

  /** The pieces register() appends, and the phase of each. */
  lemma RegisterPieces(s: Settings, classMethods: Value -> seq<string>)
    ensures InPhase(RepositorySingletons(s.repositories), 1)
    ensures InPhase(Macros(s.macros, classMethods), 2)
    ensures InPhase(Subscriptions(s.events), 4)
  {
    RepositorySingletonsAt(s.repositories);
    MacrosInPhase(s.macros, classMethods);
    SubscriptionsInPhase(s.events);
  }

  /** register() publishes the config, then registers the singletons, then
      the macros, then fetches Events and subscribes the listeners, and last
      sets the database option: no action comes after one of a later phase. */
  lemma RegisterIsPhaseOrdered(source: string, s: Settings, classMethods: Value -> seq<string>)
    ensures PhaseOrdered(RegisterLog(source, s, classMethods))
  {
    RegisterPieces(s, classMethods);
    var s0: seq<Action> := [Publish(source, PublishedConfig)];
    var s1 := s0 + RepositorySingletons(s.repositories);
    AppendPhase(s0, RepositorySingletons(s.repositories), 1);
    var s2 := s1 + [Singleton(Str(Helpers.EventsClass))];
    AppendPhase(s1, [Singleton(Str(Helpers.EventsClass))], 1);
    var s3 := s2 + Macros(s.macros, classMethods);
    AppendPhase(s2, Macros(s.macros, classMethods), 2);
    var s4 := s3 + [MakeEvents];
    AppendPhase(s3, [MakeEvents], 3);
    var s5 := s4 + Subscriptions(s.events);
    AppendPhase(s4, Subscriptions(s.events), 4);
    var d := if s.mysql && Truthy(s.stringLength) then [DefaultStringLength(s.stringLength)] else [];
    AppendPhase(s5, d, 5);
  }

  /** Every macro is registered before every event listener. */
  lemma MacrosBeforeListeners(source: string, s: Settings, classMethods: Value -> seq<string>)
    ensures var r := RegisterLog(source, s, classMethods);
            forall i, j :: 0 <= i < |r| && 0 <= j < |r| && (r[i].Mixin? || r[i].EloquentMacro?) && r[j].Subscribe?
              ==> i < j
  {
    RegisterIsPhaseOrdered(source, s, classMethods);
  }

  /** An action of one phase is not found among the actions of another. */
  lemma NotInOtherPhase(t: seq<Action>, p: nat, a: Action)
    requires InPhase(t, p) && Phase(a) != p
    ensures a !in t
  {
  }

  /** A singleton is registered for exactly the configured repository classes. */
  lemma RepositorySingletonsMembership(es: seq<(string, Value)>, x: Value)
    ensures Singleton(x) in RepositorySingletons(es) <==> x in ValuesOf(es)
  {
    RepositorySingletonsAt(es);
    if Singleton(x) in RepositorySingletons(es) {
      var k :| 0 <= k < |es| && RepositorySingletons(es)[k] == Singleton(x);
      assert ValuesOf(es)[k] == x;
    }
    if x in ValuesOf(es) {
      var k :| 0 <= k < |es| && ValuesOf(es)[k] == x;
      assert RepositorySingletons(es)[k] == Singleton(x);
    }
  }

  /** register() first registers each configured repository class as a
      singleton, in configuration order, and then the Events class. */
  lemma RegisterSingletonOrder(source: string, s: Settings, classMethods: Value -> seq<string>)
    ensures var repos := s.repositories;
            var r := RegisterLog(source, s, classMethods);
            && |r| >= |repos| + 2
            && (forall i :: 0 <= i < |repos| ==> r[1 + i] == Singleton(repos[i].1))
            && r[1 + |repos|] == Singleton(Str(Helpers.EventsClass))
  {
    var head: seq<Action> := [Publish(source, PublishedConfig)];
    var rs := RepositorySingletons(s.repositories);
    var events: seq<Action> := [Singleton(Str(Helpers.EventsClass))];
    var d := if s.mysql && Truthy(s.stringLength) then [DefaultStringLength(s.stringLength)] else [];
    RepositorySingletonsAt(s.repositories);
    PrefixKept(head + rs + events, Macros(s.macros, classMethods), [MakeEvents], Subscriptions(s.events), d);
    forall i | 0 <= i < |s.repositories|
      ensures (head + rs + events)[1 + i] == Singleton(s.repositories[i].1)
    {
      IndexInMiddle(head, rs, events, i);
    }
    IndexInMiddle(head + rs, events, [], 0);
  }

  /** register() makes a container singleton of exactly the configured
      repository classes and the Events class. */
  lemma RegisterSingletonsExactly(source: string, s: Settings, classMethods: Value -> seq<string>, x: Value)
    ensures Singleton(x) in RegisterLog(source, s, classMethods)
            <==> x == Str(Helpers.EventsClass) || x in ValuesOf(s.repositories)
  {
    RegisterPieces(s, classMethods);
    NotInOtherPhase(Macros(s.macros, classMethods), 2, Singleton(x));
    NotInOtherPhase(Subscriptions(s.events), 4, Singleton(x));
    RepositorySingletonsMembership(s.repositories, x);
  }

  /** register() subscribes exactly the configured pairs. */
  lemma RegisterSubscribes(source: string, s: Settings, classMethods: Value -> seq<string>, event: string, listener: Value)
    ensures Subscribe(event, listener) in RegisterLog(source, s, classMethods)
            <==> exists i :: 0 <= i < |s.events| && s.events[i].0 == event && listener in CastValues(s.events[i].1)
  {
    var a := Subscribe(event, listener);
    RegisterPieces(s, classMethods);
    SubscriptionsMembership(s.events, event, listener);
    NotInOtherPhase(RepositorySingletons(s.repositories), 1, a);
    NotInOtherPhase(Macros(s.macros, classMethods), 2, a);
  }

  /** Without an `events` section, register() subscribes nothing. */
  lemma MissingEventsSubscribeNothing(appConfig: string -> Value, packagePath: string -> string, classMethods: Value -> seq<string>)
    requires var mongez := appConfig("mongez");
             !mongez.Arr? || Find(mongez.entries, "events").None?
    ensures forall a :: a in RegisterActions(appConfig, packagePath, classMethods) ==> !a.Subscribe?
  {
    var s := SettingsOf(appConfig);
    assert s.events == [];
    forall a | a in RegisterLog(packagePath(ConfigFile), s, classMethods)
      ensures !a.Subscribe?
    {
      if a.Subscribe? {
        RegisterSubscribes(packagePath(ConfigFile), s, classMethods, a.event, a.listener);
      }
    }
  }

  /** The string length is set only for a MySQL driver and a truthy
      configured length, and then to that value. */
  lemma DatabaseOptionGate(source: string, s: Settings, classMethods: Value -> seq<string>, length: Value)
    ensures DefaultStringLength(length) in RegisterLog(source, s, classMethods)
            <==> s.mysql && Truthy(s.stringLength) && length == s.stringLength
  {
    var a := DefaultStringLength(length);
    RegisterPieces(s, classMethods);
    NotInOtherPhase(RepositorySingletons(s.repositories), 1, a);
    NotInOtherPhase(Macros(s.macros, classMethods), 2, a);
    NotInOtherPhase(Subscriptions(s.events), 4, a);
  }

  // ---- boot() -------------------------------------------------------------

  /** Outside the console boot() does nothing; in the console it registers
      the commands, then initialises, then prepares a first installation
      only when not installed: install first, and the MongoDB migrations
      only when `database.default` loosely equals 'mongodb'. */
  lemma BootGates(inConsole: bool, installed: bool, appConfig: string -> Value, packagePath: string -> string)
    ensures var b := BootActions(inConsole, installed, appConfig, packagePath);
            && (b == [] <==> !inConsole)
            && (inConsole ==> |b| >= 2 && b[0] == Commands(CommandsList) && b[1] == Init)
            && (Install in b <==> inConsole && !installed)
            && (forall p :: Migrate(p) in b <==>
                  inConsole && !installed && LooselyEqualsMongodb(appConfig("database.default"))
                  && p == packagePath(MongodbMigrations))
            && (forall i, j :: 0 <= i < |b| && 0 <= j < |b| && b[i] == Install && b[j].Migrate? ==> i < j)
  {
  }
}
