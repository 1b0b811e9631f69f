/**
  The memoising helpers `repo()` and `events()` of src/Helpers/functions.php.

  Both keep function-static state for the life of the PHP process: `repo()`
  a cache from repository name to instance, `events()` a single slot for the
  Events singleton. The configuration store and the service container are
  injected (`Env`); the container is given the number of earlier container
  calls, so a helper that failed to memoise would be able to observe a
  different instance.
 */
module Helpers {
  import opened Wrappers
  import opened Php

  const EventsClass: string := "HZ\\Illuminate\\Mongez\\Events\\Events"
  const RepositoriesPrefix: string := "mongez.repositories."
  const NotFoundMessage: string := "Call to undefined repository: "

  /** Why a helper call fails. */
  datatype Failure =
    | NotFoundRepositoryException(message: string)
      // the container threw while building `binding`; the exception propagates
    | ContainerException(binding: Value)
      // `repo(name)` returned a value that is not a RepositoryInterface
    | ReturnTypeError(name: string)

  /** The framework the helpers call into: `config($key)` (null when the key
      is missing); `make($abstract)` given the number of earlier calls, None
      when the container throws; whether a built value implements
      RepositoryInterface; and whether PHP counts a built value as empty
      (`empty($v)`, `!$v`), as a binding to null, false, 0 or "" is. */
  datatype Env<!T> = Env(
    config: string -> Value,
    make: (Value, nat) -> Option<T>,
    isRepository: T -> bool,
    falsy: T -> bool)

  /** A container call: who asked, with which abstract, and whether it gave
      back a non-empty value, which the helper then answers from its cache. */
  datatype Construction =
    | ForRepository(name: string, binding: Value, kept: bool)
    | ForEvents(kept: bool)

  /** The helpers' static variables, with the container calls and the config
      keys they have issued so far, in order. */
  datatype Statics<T> = Statics(
    repos: map<string, T>,
    events: Option<T>,
    made: seq<Construction>,
    consulted: seq<string>)

  /** The state at process start: `static $repos = []` and an unset `static $events`. */
  function Initial<T>(): Statics<T> {
    Statics(map[], None, [], [])
  }

  function RepositoryKey(name: string): string {
    RepositoriesPrefix + name
  }

  /** `!empty($repos[$name])`: a cache hit. */
  predicate Cached<T>(env: Env<T>, s: Statics<T>, name: string) {
    name in s.repos && !env.falsy(s.repos[name])
  }

  /** `$events` holds a value `!$events` does not reject. */
  predicate EventsSet<T>(env: Env<T>, s: Statics<T>) {
    s.events.Some? && !env.falsy(s.events.value)
  }

  /** What `repo(name)` hands back for `value` once its declared return type
      `RepositoryInterface` is checked; an empty value is never an object. */
  function Returned<T>(env: Env<T>, name: string, value: T): (r: Result<T, Failure>)
    ensures r.Ok? <==> env.isRepository(value) && !env.falsy(value)
    ensures r.Ok? ==> r.value == value
    ensures r.Err? ==> r.error == ReturnTypeError(name)
  {
    if env.isRepository(value) && !env.falsy(value) then Ok(value) else Err(ReturnTypeError(name))
  }

  /** `repo($repository)`: the answer and the statics afterwards. The built
      value is stored before the return type is checked. */
  function LookupRepository<T>(env: Env<T>, s: Statics<T>, name: string)
    : (r: (Result<T, Failure>, Statics<T>))
    // a hit is answered from the cache and changes nothing
    ensures Cached(env, s, name) ==> r == (Returned(env, name, s.repos[name]), s)
    // a success answers the entry now cached under the name
    ensures r.0.Ok? ==> Cached(env, r.1, name) && r.0.value == r.1.repos[name]
    // a TypeError leaves the offending value stored
    ensures r.0 == Err(ReturnTypeError(name)) ==>
              name in r.1.repos && Returned(env, name, r.1.repos[name]) == r.0
    // the other failures store nothing
    ensures r.0.Err? && r.0.error != ReturnTypeError(name) ==> r.1.repos == s.repos
    // no other name's entry is touched, and never the Events slot
    ensures forall n :: n != name && n in s.repos ==> n in r.1.repos && r.1.repos[n] == s.repos[n]
    ensures forall n :: n != name && n in r.1.repos ==> n in s.repos
    ensures r.1.events == s.events
  {
    if Cached(env, s, name) then (Returned(env, name, s.repos[name]), s)
    else
      var binding := env.config(RepositoryKey(name));
      var s1 := s.(consulted := s.consulted + [RepositoryKey(name)]);
      if !Truthy(binding) then
        (Err(NotFoundRepositoryException(NotFoundMessage + name)), s1)
      else
        match env.make(binding, |s.made|)
        case None =>
          (Err(ContainerException(binding)),
           s1.(made := s.made + [ForRepository(name, binding, false)]))
        case Some(instance) =>
          (Returned(env, name, instance),
           s1.(repos := s.repos[name := instance],
               made := s.made + [ForRepository(name, binding, !env.falsy(instance))]))
  }

  /** `events()`: the answer and the statics afterwards. */
  function FetchEvents<T>(env: Env<T>, s: Statics<T>): (r: (Result<T, Failure>, Statics<T>))
    ensures EventsSet(env, s) ==> r == (Ok(s.events.value), s)
    ensures r.0.Ok? ==> r.1.events == Some(r.0.value)
    ensures r.0.Err? ==> r.1.events == s.events
    ensures r.1.repos == s.repos
  {
    if EventsSet(env, s) then (Ok(s.events.value), s)
    else
      match env.make(Str(EventsClass), |s.made|)
      case None =>
        (Err(ContainerException(Str(EventsClass))), s.(made := s.made + [ForEvents(false)]))
      case Some(instance) =>
        (Ok(instance), s.(events := Some(instance), made := s.made + [ForEvents(!env.falsy(instance))]))
  }

  /** One call of either helper, for reasoning about a whole process. */
  datatype Call = RepoCall(name: string) | EventsCall

  function Step<T>(env: Env<T>, s: Statics<T>, c: Call): (Result<T, Failure>, Statics<T>) {
    match c
    case RepoCall(name) => LookupRepository(env, s, name)
    case EventsCall => FetchEvents(env, s)
  }

  /** The answers to a sequence of helper calls, and the final statics. */
  function Run<T>(env: Env<T>, s: Statics<T>, calls: seq<Call>): (r: (seq<Result<T, Failure>>, Statics<T>))
    ensures |r.0| == |calls|
    decreases |calls|
  {
    if calls == [] then ([], s)
    else
      var (a, s') := Step(env, s, calls[0]);
      var (rest, final) := Run(env, s', calls[1..]);
      ([a] + rest, final)
  }

  // ---- single calls -------------------------------------------------------

  /** A cache hit answers the cached instance, type-checked, without
      consulting the configuration or the container. */
  lemma CacheHitConsultsNothing<T>(env: Env<T>, s: Statics<T>, name: string)
    requires Cached(env, s, name)
    ensures LookupRepository(env, s, name) == (Returned(env, name, s.repos[name]), s)
  {
  }

  /** A miss throws NotFoundRepositoryException exactly when
      `mongez.repositories.<name>` is falsy, with the message naming the
      repository, and then leaves the cache and the container untouched. */
  lemma FalsyBindingThrows<T>(env: Env<T>, s: Statics<T>, name: string)
    requires !Cached(env, s, name)
    ensures LookupRepository(env, s, name).0
              == Err(NotFoundRepositoryException("Call to undefined repository: " + name))
            <==> !Truthy(env.config("mongez.repositories." + name))
    ensures !Truthy(env.config("mongez.repositories." + name)) ==>
              var s' := LookupRepository(env, s, name).1;
              s'.repos == s.repos && s'.made == s.made && s'.events == s.events
  {
  }

  /** A miss with a truthy binding that the container builds asks the
      container once for that binding and stores the value under `name`; the
      call answers it when it is a RepositoryInterface and fails with a
      TypeError otherwise, after storing it. */
  lemma SuccessStoresInstance<T>(env: Env<T>, s: Statics<T>, name: string, instance: T)
    requires !Cached(env, s, name)
    requires Truthy(env.config(RepositoryKey(name)))
    requires env.make(env.config(RepositoryKey(name)), |s.made|) == Some(instance)
    ensures var (r, s') := LookupRepository(env, s, name);
            && (r == Ok(instance) <==> env.isRepository(instance) && !env.falsy(instance))
            && (r.Err? <==> r == Err(ReturnTypeError(name)))
            && s'.repos == s.repos[name := instance]
            && s'.made == s.made + [ForRepository(name, env.config(RepositoryKey(name)), !env.falsy(instance))]
  {
  }

  /** A miss whose binding the container cannot build passes the container's
      exception on and stores nothing, so the next `repo(name)` asks again. */
  lemma ContainerFailureStoresNothing<T>(env: Env<T>, s: Statics<T>, name: string)
    requires !Cached(env, s, name)
    requires Truthy(env.config(RepositoryKey(name)))
    requires env.make(env.config(RepositoryKey(name)), |s.made|).None?
    ensures var (r, s') := LookupRepository(env, s, name);
            && r == Err(ContainerException(env.config(RepositoryKey(name))))
            && s'.repos == s.repos && s'.events == s.events
            && !Cached(env, s', name)
  {
  }

  /** An `events()` call without a usable instance asks the container for the
      Events class; it answers and stores what the container builds, or
      passes the container's exception on and stores nothing. */
  lemma EventsMissBuilds<T>(env: Env<T>, s: Statics<T>)
    requires !EventsSet(env, s)
    ensures var (r, s') := FetchEvents(env, s);
            var built := env.make(Str(EventsClass), |s.made|);
            && (r.Ok? <==> built.Some?)
            && (built.Some? ==> r == Ok(built.value) && s'.events == built)
            && (built.None? ==> r == Err(ContainerException(Str(EventsClass))) && s'.events == s.events)
            && s'.made == s.made + [ForEvents(built.Some? && !env.falsy(built.value))]
  {
  }

  // ---- whole processes ----------------------------------------------------

  /** A cache hit (repository or Events) survives every later call unchanged. */
  lemma {:induction false} EntriesPersist<T>(env: Env<T>, s: Statics<T>, calls: seq<Call>)
    ensures var final := Run(env, s, calls).1;
            && (forall n :: Cached(env, s, n) ==> n in final.repos && final.repos[n] == s.repos[n])
            && (EventsSet(env, s) ==> final.events == s.events)
    decreases |calls|
  {
    if calls != [] {
      var s' := Step(env, s, calls[0]).1;
      assert forall n :: Cached(env, s, n) ==> n in s'.repos && s'.repos[n] == s.repos[n];
      assert EventsSet(env, s) ==> s'.events == s.events;
      EntriesPersist(env, s', calls[1..]);
      assert Run(env, s, calls).1 == Run(env, s', calls[1..]).1;
    }
  }

  /** Once a name is cached, every later `repo(name)` answers that instance,
      type-checked the same way each time. */
  lemma {:induction false} CachedNameAnswersSame<T>(env: Env<T>, s: Statics<T>, calls: seq<Call>, name: string)
    requires Cached(env, s, name)
    ensures forall i :: 0 <= i < |calls| && calls[i] == RepoCall(name) ==>
              Run(env, s, calls).0[i] == Returned(env, name, s.repos[name])
    decreases |calls|
  {
    if calls != [] {
      var s' := Step(env, s, calls[0]).1;
      EntriesPersist(env, s, [calls[0]]);
      assert Cached(env, s', name) && s'.repos[name] == s.repos[name];
      CachedNameAnswersSame(env, s', calls[1..], name);
      forall i | 0 <= i < |calls| && calls[i] == RepoCall(name)
        ensures Run(env, s, calls).0[i] == Returned(env, name, s.repos[name])
      {
        if i > 0 {
          assert calls[1..][i - 1] == calls[i];
        }
      }
    }
  }

  /** A successful `repo(name)` fixes the answer of every later `repo(name)`. */
  lemma ResolvedRepositoryIsStable<T>(env: Env<T>, s: Statics<T>, name: string, calls: seq<Call>)
    requires LookupRepository(env, s, name).0.Ok?
    ensures var (r, s') := LookupRepository(env, s, name);
            forall i :: 0 <= i < |calls| && calls[i] == RepoCall(name) ==>
              Run(env, s', calls).0[i] == r
  {
    var (r, s') := LookupRepository(env, s, name);
    assert Cached(env, s', name) && r == Returned(env, name, s'.repos[name]);
    CachedNameAnswersSame(env, s', calls, name);
  }

  /** Once `events()` holds a usable instance, every later call answers it. */
  lemma {:induction false} EventsAnswersSame<T>(env: Env<T>, s: Statics<T>, calls: seq<Call>)
    requires EventsSet(env, s)
    ensures forall i :: 0 <= i < |calls| && calls[i] == EventsCall ==>
              Run(env, s, calls).0[i] == Ok(s.events.value)
    decreases |calls|
  {
    if calls != [] {
      var s' := Step(env, s, calls[0]).1;
      EntriesPersist(env, s, [calls[0]]);
      assert s'.events == s.events;
      EventsAnswersSame(env, s', calls[1..]);
      forall i | 0 <= i < |calls| && calls[i] == EventsCall
        ensures Run(env, s, calls).0[i] == Ok(s.events.value)
      {
        if i > 0 {
          assert calls[1..][i - 1] == calls[i];
        }
      }
    }
  }

  /** The target of a container call: a repository name, or None for Events. */
  function Target(c: Construction): Option<string> {
    match c
    case ForRepository(name, _, _) => Some(name)
    case ForEvents(_) => None
  }

  /** Every container call that gave back a non-empty value made its entry a
      cache hit, and the container was never asked again for such an entry. */
  ghost predicate Consistent<T>(env: Env<T>, s: Statics<T>) {
    && (forall i :: 0 <= i < |s.made| && s.made[i].kept ==>
          match s.made[i]
          case ForRepository(n, _, _) => Cached(env, s, n)
          case ForEvents(_) => EventsSet(env, s))
    && (forall i, j :: 0 <= i < j < |s.made| && s.made[i].kept ==> Target(s.made[i]) != Target(s.made[j]))
  }

  /** A new container call at the end of `made` keeps the statics consistent
      when its target was no cache hit and the old entries stay hits. */
  lemma AppendKeepsConsistent<T>(env: Env<T>, s: Statics<T>, s': Statics<T>)
    requires Consistent(env, s)
    requires |s'.made| == |s.made| + 1 && s'.made[..|s.made|] == s.made
    requires forall n :: Cached(env, s, n) ==> Cached(env, s', n)
    requires EventsSet(env, s) ==> EventsSet(env, s')
    requires match s'.made[|s.made|]
             case ForRepository(n, _, k) => !Cached(env, s, n) && (k ==> Cached(env, s', n))
             case ForEvents(k) => !EventsSet(env, s) && (k ==> EventsSet(env, s'))
    ensures Consistent(env, s')
  {
    forall i | 0 <= i < |s.made|
      ensures s'.made[i] == s.made[i]
    {
      assert s'.made[..|s.made|][i] == s.made[i];
    }
  }

  lemma StepKeepsConsistent<T>(env: Env<T>, s: Statics<T>, c: Call)
    requires Consistent(env, s)
    ensures Consistent(env, Step(env, s, c).1)
  {
    var s' := Step(env, s, c).1;
    if |s'.made| > |s.made| {
      assert s'.made[..|s.made|] == s.made;
      AppendKeepsConsistent(env, s, s');
    }
  }

  lemma {:induction false} RunKeepsConsistent<T>(env: Env<T>, s: Statics<T>, calls: seq<Call>)
    requires Consistent(env, s)
    ensures Consistent(env, Run(env, s, calls).1)
    decreases |calls|
  {
    if calls != [] {
      StepKeepsConsistent(env, s, calls[0]);
      RunKeepsConsistent(env, Step(env, s, calls[0]).1, calls[1..]);
    }
  }

  /** Over any process, once the container has given back a non-empty Events
      instance or repository value, it is never asked for that entry again;
      failed and empty builds are retried. */
  lemma ContainerNotAskedAgain<T>(env: Env<T>, calls: seq<Call>)
    ensures var made := Run(env, Initial(), calls).1.made;
            forall i, j :: 0 <= i < j < |made| && made[i].kept ==> Target(made[i]) != Target(made[j])
  {
    RunKeepsConsistent(env, Initial(), calls);
  }

  /**
    The function-static variables of `repo()` and `events()`, as one object
    that lives as long as the process.
   */
  class FunctionStatics<T> {
    const env: Env<T>
    var repos: map<string, T>
    var events: Option<T>
    var made: seq<Construction>
    var consulted: seq<string>

    function State(): Statics<T>
      reads this
    {
      Statics(repos, events, made, consulted)
    }

    constructor (env: Env<T>)
      ensures this.env == env
      ensures State() == Initial()
    {
      this.env := env;
      repos, events, made, consulted := map[], None, [], [];
    }

    /** `repo($repository)`. */
    method Repo(name: string) returns (r: Result<T, Failure>)
      modifies this
      ensures (r, State()) == LookupRepository(env, old(State()), name)
      ensures old(Cached(env, State(), name)) ==>
                r == Returned(env, name, old(repos[name])) && repos == old(repos)
      ensures r.Ok? ==> name in repos && r.value == repos[name] && !env.falsy(repos[name])
      ensures repos != old(repos) ==> name in repos && repos == old(repos)[name := repos[name]]
                                      && r == Returned(env, name, repos[name])
      ensures events == old(events)
    {
      if name in repos && !env.falsy(repos[name]) {
        return Returned(env, name, repos[name]);
      }
      var key := RepositoryKey(name);
      consulted := consulted + [key];
      var repositoryClass := env.config(key);
      if !Truthy(repositoryClass) {
        return Err(NotFoundRepositoryException(NotFoundMessage + name));
      }
      var built := env.make(repositoryClass, |made|);
      if built.None? {
        made := made + [ForRepository(name, repositoryClass, false)];
        return Err(ContainerException(repositoryClass));
      }
      made := made + [ForRepository(name, repositoryClass, !env.falsy(built.value))];
      repos := repos[name := built.value];
      r := Returned(env, name, built.value);
    }

    /** `events()`. */
    method Events() returns (e: Result<T, Failure>)
      modifies this
      ensures (e, State()) == FetchEvents(env, old(State()))
      ensures old(EventsSet(env, State())) ==> e == Ok(old(events.value)) && made == old(made)
      ensures e.Ok? ==> events == Some(e.value)
      ensures e.Err? ==> events == old(events)
      ensures repos == old(repos)
    {
      if events.None? || env.falsy(events.value) {
        var built := env.make(Str(EventsClass), |made|);
        if built.None? {
          made := made + [ForEvents(false)];
          return Err(ContainerException(Str(EventsClass)));
        }
        made := made + [ForEvents(!env.falsy(built.value))];
        events := built;
      }
      e := Ok(events.value);
    }
  }
}
