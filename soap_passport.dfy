/**
 * The orchestrator: registers the built-in strategies the configuration asks
 * for, in a fixed order, and `init` builds the component list, installs the
 * session hooks and runs every registered strategy's `init`.
 */
module SoapPassport {
  import opened Wrappers
  import opened Js
  import OM = OrderedMaps
  import opened Passport
  import opened Strategy
  import Redirect

  /** The configuration keys the constructor tests, in the order it tests them. */
  const CONFIG_KEYS: seq<string> := ["jwt", "apiKey", "facebook", "google", "twitter", "local", "basic"]

  /** Stand-in values of the strategy-type enumeration the registry names come from (distinct, non-empty). */
  const STRATEGY_TYPES: seq<string> := ["jwt", "api-key", "facebook", "google", "twitter", "local", "basic"]

  const SLOTS: nat := 7

  /** Which built-in strategy slot `n` constructs from its configuration value. */
  function SchemeFor(n: nat, section: Value): Scheme
    requires n < SLOTS
  {
    var c := Props(section);
    if n == 0 then JwtScheme(c)
    else if n == 1 then ApiKeyScheme(c)
    else if n == 2 then RedirectScheme(Redirect.Facebook, c)
    else if n == 3 then RedirectScheme(Redirect.Google, c)
    else if n == 4 then RedirectScheme(Redirect.Twitter, c)
    else if n == 5 then LocalScheme(c)
    else BasicScheme(c)
  }

  /** One registration the constructor performs. */
  datatype Registration = Registration(slot: nat, name: string, scheme: Scheme)

  /** The registrations of the slots before `n`: one for each slot whose configuration key is truthy. */
  function PlanUpTo(config: Record, n: nat): (plan: seq<Registration>)
    requires n <= SLOTS
    ensures |plan| <= n
    ensures forall i :: 0 <= i < |plan| ==> plan[i].slot < n
  {
    if n == 0 then []
    else
      var section := Get(config, CONFIG_KEYS[n - 1]);
      PlanUpTo(config, n - 1) +
        (if Truthy(section) then [Registration(n - 1, STRATEGY_TYPES[n - 1], SchemeFor(n - 1, section))] else [])
  }

  /** Everything the constructor registers: truthy keys only, each once, in slot order. */
  function Plan(config: Record): (plan: seq<Registration>)
    ensures |plan| <= SLOTS
    ensures forall r :: r in plan ==>
      r.slot < SLOTS && r.name == STRATEGY_TYPES[r.slot] && Truthy(Get(config, CONFIG_KEYS[r.slot])) &&
      r.scheme == SchemeFor(r.slot, Get(config, CONFIG_KEYS[r.slot]))
    ensures forall i, j :: 0 <= i < j < |plan| ==> plan[i].slot < plan[j].slot
  {
    PlanSlots(config, SLOTS);
    PlanOrdered(config, SLOTS);
    PlanUpTo(config, SLOTS)
  }

  function Names(plan: seq<Registration>): (names: seq<string>)
    ensures |names| == |plan|
    ensures forall i :: 0 <= i < |plan| ==> names[i] == plan[i].name
  {
    if plan == [] then [] else Names(plan[..|plan| - 1]) + [plan[|plan| - 1].name]
  }

  /** Registrations come in slot order, so the fixed order jwt, apiKey, facebook, google, twitter, local, basic is kept. */
  lemma {:induction false} PlanOrdered(config: Record, n: nat)
    requires n <= SLOTS
    ensures forall i, j :: 0 <= i < j < |PlanUpTo(config, n)| ==> PlanUpTo(config, n)[i].slot < PlanUpTo(config, n)[j].slot
  {
    if n > 0 {
      PlanOrdered(config, n - 1);
    }
  }

  /** Every registration carries the name and the scheme of its slot. */
  lemma {:induction false} PlanSlots(config: Record, n: nat)
    requires n <= SLOTS
    ensures forall r :: r in PlanUpTo(config, n) ==>
      r.slot < n && r.name == STRATEGY_TYPES[r.slot] && Truthy(Get(config, CONFIG_KEYS[r.slot])) &&
      r.scheme == SchemeFor(r.slot, Get(config, CONFIG_KEYS[r.slot]))
  {
    if n > 0 {
      PlanSlots(config, n - 1);
    }
  }

  /** Slot `k` is registered exactly when its configuration key is truthy; absent keys are skipped. */
  lemma {:induction false} PlanMembership(config: Record, n: nat, k: nat)
    requires k < n <= SLOTS
    ensures (exists r :: r in PlanUpTo(config, n) && r.slot == k) <==> Truthy(Get(config, CONFIG_KEYS[k]))
  {
    PlanSlots(config, n);
    if k < n - 1 {
      PlanMembership(config, n - 1, k);
    } else {
      var section := Get(config, CONFIG_KEYS[k]);
      if Truthy(section) {
        assert Registration(k, STRATEGY_TYPES[k], SchemeFor(k, section)) in PlanUpTo(config, n);
      }
    }
  }

  /** An empty configuration registers nothing. */
  lemma EmptyConfigRegistersNothing()
    ensures Plan(map[]) == []
  {
  }

  /** With every configuration key set, the first `n` built-in strategies are registered under their names, in order. */
  lemma {:induction false} FullConfigRegistersAll(config: Record, n: nat)
    requires n <= SLOTS
    requires forall k :: 0 <= k < SLOTS ==> CONFIG_KEYS[k] in config && config[CONFIG_KEYS[k]].Obj?
    ensures Names(PlanUpTo(config, n)) == STRATEGY_TYPES[..n]
  {
    if n > 0 {
      FullConfigRegistersAll(config, n - 1);
      var section := Get(config, CONFIG_KEYS[n - 1]);
      assert Truthy(section);
      var reg := Registration(n - 1, STRATEGY_TYPES[n - 1], SchemeFor(n - 1, section));
      assert PlanUpTo(config, n) == PlanUpTo(config, n - 1) + [reg];
      NamesAppend(PlanUpTo(config, n - 1), reg);
      TakeOneMore(STRATEGY_TYPES, n - 1);
    }
  }

  lemma TakeOneMore<T>(s: seq<T>, n: nat)
    requires n < |s|
    ensures s[..n + 1] == s[..n] + [s[n]]
  {
  }

  /** The components `init` returns. */
  function Components(config: Record, options: Value): (cs: seq<Component>)
    ensures |cs| >= 1 && cs[|cs| - 1] == InitializeComponent(options)
    ensures SessionComponent in cs <==> Truthy(Get(config, "sessionOptions"))
  {
    (if Truthy(Get(config, "sessionOptions")) then [SessionComponent] else []) + [InitializeComponent(options)]
  }

  /** The Passport calls `init` makes before it turns to the strategies. */
  function HookCalls(config: Record, options: Value): (calls: seq<Call>)
    ensures |calls| >= 1 && calls[|calls| - 1] == InitializeCall(options)
    ensures |calls| <= 4
    ensures !Truthy(Get(config, "sessionOptions")) ==> calls == [InitializeCall(options)]
  {
    var session := Get(config, "sessionOptions");
    var serialize, deserialize := GetProp(session, "serialize"), GetProp(session, "deserialize");
    (if Truthy(session) then
       [SessionCall] +
       (if Truthy(serialize) then [SerializeUserCall(serialize)] else []) +
       (if Truthy(deserialize) then [DeserializeUserCall(deserialize)] else [])
     else []) +
    [InitializeCall(options)]
  }

  /** The session component comes first when session options exist; `initialize` is always last. */
  lemma ComponentsShape(config: Record, options: Value)
    ensures var cs := Components(config, options);
      |cs| == (if Truthy(Get(config, "sessionOptions")) then 2 else 1) &&
      cs[|cs| - 1] == InitializeComponent(options) &&
      (Truthy(Get(config, "sessionOptions")) <==> cs[0] == SessionComponent)
  {
  }

  /**
   * The hooks: `serializeUser` is called exactly when session options with a
   * truthy `serialize` exist, and likewise `deserializeUser`; without session
   * options only `initialize` is called; `initialize` comes last.
   */
  lemma HookCallsShape(config: Record, options: Value)
    ensures var calls, session := HookCalls(config, options), Get(config, "sessionOptions");
      calls[|calls| - 1] == InitializeCall(options) &&
      (SessionCall in calls <==> Truthy(session)) &&
      ((exists fn :: SerializeUserCall(fn) in calls) <==> Truthy(session) && Truthy(GetProp(session, "serialize"))) &&
      ((exists fn :: DeserializeUserCall(fn) in calls) <==> Truthy(session) && Truthy(GetProp(session, "deserialize"))) &&
      (!Truthy(session) ==> calls == [InitializeCall(options)])
  {
    var calls, session := HookCalls(config, options), Get(config, "sessionOptions");
    var serialize, deserialize := GetProp(session, "serialize"), GetProp(session, "deserialize");
    if Truthy(session) && Truthy(serialize) {
      assert SerializeUserCall(serialize) in calls;
    }
    if Truthy(session) && Truthy(deserialize) {
      assert DeserializeUserCall(deserialize) in calls;
    }
  }

  /** The calls the strategies' `init` make when run in the order of `keys`. */
  function StrategyCalls(keys: seq<string>, entries: map<string, AuthStrategy>): seq<Call>
    requires forall k :: k in keys ==> k in entries
  {
    if keys == [] then []
    else StrategyCalls(keys[..|keys| - 1], entries) + InitCalls(entries[keys[|keys| - 1]].scheme)
  }

  /** How many of `keys` name the object `o`: how often a run over `keys` initialises it. */
  function Occurrences(keys: seq<string>, entries: map<string, AuthStrategy>, o: AuthStrategy): (n: nat)
    requires forall k :: k in keys ==> k in entries
    ensures n <= |keys|
  {
    if keys == [] then 0
    else Occurrences(keys[..|keys| - 1], entries, o) + (if entries[keys[|keys| - 1]] == o then 1 else 0)
  }

  lemma AppendStep<T>(start: seq<T>, prefix: seq<T>, more: seq<T>, whole: seq<T>)
    requires whole == prefix + more
    ensures start + whole == (start + prefix) + more
  {
  }

  /** Distinct names hold distinct strategy objects. */
  predicate Injective(m: OM.OrderedMap<AuthStrategy>)
    requires m.Valid()
  {
    forall i, j :: 0 <= i < |m.keys| && 0 <= j < |m.keys| && i != j ==> m.entries[m.keys[i]] != m.entries[m.keys[j]]
  }

  /** An object under one of the keys occurs at least once. */
  lemma {:induction false} OccurrencesAtLeastOne(keys: seq<string>, entries: map<string, AuthStrategy>, i: nat)
    requires forall k :: k in keys ==> k in entries
    requires i < |keys|
    ensures Occurrences(keys, entries, entries[keys[i]]) >= 1
  {
    if i < |keys| - 1 {
      OccurrencesAtLeastOne(keys[..|keys| - 1], entries, i);
    }
  }

  /** When no object is registered twice, a run over the keys initialises each one exactly once. */
  lemma {:induction false} OccurrencesOneWhenInjective(keys: seq<string>, entries: map<string, AuthStrategy>, i: nat)
    requires forall k :: k in keys ==> k in entries
    requires forall a, b :: 0 <= a < |keys| && 0 <= b < |keys| && a != b ==> entries[keys[a]] != entries[keys[b]]
    requires i < |keys|
    ensures Occurrences(keys, entries, entries[keys[i]]) == 1
  {
    var last := |keys| - 1;
    var front := keys[..last];
    if i < last {
      OccurrencesOneWhenInjective(front, entries, i);
      assert entries[keys[last]] != entries[keys[i]];
    } else {
      OccurrencesNone(front, entries, entries[keys[i]]);
    }
  }

  lemma {:induction false} OccurrencesNone(keys: seq<string>, entries: map<string, AuthStrategy>, o: AuthStrategy)
    requires forall k :: k in keys ==> k in entries
    requires forall a :: 0 <= a < |keys| ==> entries[keys[a]] != o
    ensures Occurrences(keys, entries, o) == 0
  {
    if keys != [] {
      OccurrencesNone(keys[..|keys| - 1], entries, o);
    }
  }

  /** Extending the run by one key adds that key's strategy calls at the end. */
  lemma StrategyCallsStep(keys: seq<string>, entries: map<string, AuthStrategy>, i: nat)
    requires forall k :: k in keys ==> k in entries
    requires i < |keys|
    ensures StrategyCalls(keys[..i + 1], entries) == StrategyCalls(keys[..i], entries) + InitCalls(entries[keys[i]].scheme)
  {
    assert keys[..i + 1][..i] == keys[..i];
  }

  /** Extending the run by one key counts that key's object once more. */
  lemma OccurrencesStep(keys: seq<string>, entries: map<string, AuthStrategy>, i: nat, o: AuthStrategy)
    requires forall k :: k in keys ==> k in entries
    requires i < |keys|
    ensures Occurrences(keys[..i + 1], entries, o) == Occurrences(keys[..i], entries, o) + (if entries[keys[i]] == o then 1 else 0)
  {
    assert keys[..i + 1][..i] == keys[..i];
  }

  /** The strategy-type names differ already in their first character. */
  lemma StrategyTypesDistinct(a: nat, b: nat)
    requires a < SLOTS && b < SLOTS && a != b
    ensures STRATEGY_TYPES[a] != STRATEGY_TYPES[b]
  {
    var initials := "jafgtlb";
    assert forall k :: 0 <= k < SLOTS ==> |STRATEGY_TYPES[k]| > 0 && STRATEGY_TYPES[k][0] == initials[k];
  }

  /** The name slot `n` registers under is not among the names of the slots before it. */
  lemma NextNameIsNew(config: Record, n: nat)
    requires n < SLOTS
    ensures STRATEGY_TYPES[n] !in Names(PlanUpTo(config, n))
  {
    var plan := PlanUpTo(config, n);
    PlanSlots(config, n);
    forall i | 0 <= i < |plan| ensures Names(plan)[i] != STRATEGY_TYPES[n] {
      assert plan[i] in plan;
      StrategyTypesDistinct(plan[i].slot, n);
    }
  }

  /** Storing an object not yet in the registry under a new name keeps names and objects one-to-one. */
  lemma InjectiveAfterSetNew(m: OM.OrderedMap<AuthStrategy>, name: string, s: AuthStrategy)
    requires m.Valid() && Injective(m) && name !in m.entries && s !in m.entries.Values
    ensures Injective(OM.Set(m, name, s))
  {
    var r := OM.Set(m, name, s);
    forall i, j | 0 <= i < |r.keys| && 0 <= j < |r.keys| && i != j
      ensures r.entries[r.keys[i]] != r.entries[r.keys[j]]
    {
      if i < |m.keys| && j < |m.keys| {
        assert r.keys[i] == m.keys[i] && r.keys[j] == m.keys[j];
      } else if i < |m.keys| {
        assert r.entries[r.keys[i]] == m.entries[m.keys[i]];
        assert m.entries[m.keys[i]] in m.entries.Values;
      } else {
        assert r.entries[r.keys[j]] == m.entries[m.keys[j]];
        assert m.entries[m.keys[j]] in m.entries.Values;
      }
    }
  }

  /** A run over all the keys of a registry initialises every registered object at least once. */
  lemma EveryObjectOccurs(m: OM.OrderedMap<AuthStrategy>)
    requires m.Valid()
    ensures forall s :: s in m.entries.Values ==> Occurrences(m.keys, m.entries, s) >= 1
  {
    forall s | s in m.entries.Values
      ensures Occurrences(m.keys, m.entries, s) >= 1
    {
      var k :| k in m.entries && m.entries[k] == s;
      var j :| 0 <= j < |m.keys| && m.keys[j] == k;
      OccurrencesAtLeastOne(m.keys, m.entries, j);
    }
  }

  /** Without aliasing, a run over all the keys of a registry initialises every registered object exactly once. */
  lemma EveryObjectOnce(m: OM.OrderedMap<AuthStrategy>)
    requires m.Valid() && Injective(m)
    ensures forall s :: s in m.entries.Values ==> Occurrences(m.keys, m.entries, s) == 1
  {
    forall s | s in m.entries.Values
      ensures Occurrences(m.keys, m.entries, s) == 1
    {
      var k :| k in m.entries && m.entries[k] == s;
      var j :| 0 <= j < |m.keys| && m.keys[j] == k;
      OccurrencesOneWhenInjective(m.keys, m.entries, j);
    }
  }

  /** Each planned registration's name holds a strategy of the planned scheme. */
  predicate PlanHeld(m: OM.OrderedMap<AuthStrategy>, plan: seq<Registration>) {
    forall i :: 0 <= i < |plan| ==> plan[i].name in m.entries && m.entries[plan[i].name].scheme == plan[i].scheme
  }

  /** The registry before slot `n` is filled, and after the constructor's `if` for that slot registers `s`. */
  lemma RegisterStep(m: OM.OrderedMap<AuthStrategy>, config: Record, n: nat, s: AuthStrategy)
    requires n < SLOTS && m.Valid()
    requires m.keys == Names(PlanUpTo(config, n)) && PlanHeld(m, PlanUpTo(config, n))
    requires Truthy(Get(config, CONFIG_KEYS[n])) && s.scheme == SchemeFor(n, Get(config, CONFIG_KEYS[n]))
    ensures STRATEGY_TYPES[n] !in m.entries
    ensures OM.Set(m, STRATEGY_TYPES[n], s).keys == Names(PlanUpTo(config, n + 1))
    ensures PlanHeld(OM.Set(m, STRATEGY_TYPES[n], s), PlanUpTo(config, n + 1))
    ensures OM.Set(m, STRATEGY_TYPES[n], s).entries.Values == m.entries.Values + {s}
  {
    NextNameIsNew(config, n);
    var plan, reg := PlanUpTo(config, n), Registration(n, STRATEGY_TYPES[n], SchemeFor(n, Get(config, CONFIG_KEYS[n])));
    assert PlanUpTo(config, n + 1) == plan + [reg];
    NamesAppend(plan, reg);
    PlanHeldAfterSet(m, plan, reg, s);
    OM.ValueSetAfterSetNew(m, STRATEGY_TYPES[n], s);
  }

  /** Appending a registration appends its name. */
  lemma NamesAppend(plan: seq<Registration>, reg: Registration)
    ensures Names(plan + [reg]) == Names(plan) + [reg.name]
  {
    assert (plan + [reg])[..|plan|] == plan;
  }

  /** Storing a new registration's strategy keeps the earlier registrations held. */
  lemma PlanHeldAfterSet(m: OM.OrderedMap<AuthStrategy>, plan: seq<Registration>, reg: Registration, s: AuthStrategy)
    requires m.Valid() && PlanHeld(m, plan) && reg.name !in m.entries && s.scheme == reg.scheme
    ensures PlanHeld(OM.Set(m, reg.name, s), plan + [reg])
  {
    var r, whole := OM.Set(m, reg.name, s), plan + [reg];
    forall i | 0 <= i < |whole|
      ensures whole[i].name in r.entries && r.entries[whole[i].name].scheme == whole[i].scheme
    {
      if i < |plan| {
        assert whole[i] == plan[i];
      }
    }
  }

  /** A slot whose configuration key is falsy registers nothing. */
  lemma SkipStep(config: Record, n: nat)
    requires n < SLOTS && !Truthy(Get(config, CONFIG_KEYS[n]))
    ensures PlanUpTo(config, n + 1) == PlanUpTo(config, n)
  {
  }

  /** A strategy as its constructor leaves it. */
  ghost predicate Unused(s: AuthStrategy)
    reads s
  {
    s.initCount == 0 && s.middlewares == OM.Empty() && s.routes == OM.Empty()
  }

  /** The registry holds, in order, one strategy for each truthy configuration key of the slots before `n`, each under its own name. */
  predicate PlanRegistered(config: Record, m: OM.ValidMap<AuthStrategy>, n: nat) {
    n <= SLOTS && m.keys == Names(PlanUpTo(config, n)) && PlanHeld(m, PlanUpTo(config, n)) && Injective(m)
  }

  /** Every registered strategy is as its constructor left it. */
  ghost predicate AllUnused(m: OM.OrderedMap<AuthStrategy>)
    reads m.entries.Values
  {
    forall s :: s in m.entries.Values ==> Unused(s)
  }

  /** What the constructor has built once it has gone through the slots before `n`. */
  ghost predicate Registered(config: Record, m: OM.ValidMap<AuthStrategy>, n: nat)
    reads m.entries.Values
  {
    PlanRegistered(config, m, n) && AllUnused(m)
  }

  /** Registering a new strategy for a truthy slot extends the registry to that slot. */
  lemma RegisterPlanned(config: Record, m: OM.ValidMap<AuthStrategy>, n: nat, s: AuthStrategy)
    requires n < SLOTS && PlanRegistered(config, m, n)
    requires Truthy(Get(config, CONFIG_KEYS[n])) && s.scheme == SchemeFor(n, Get(config, CONFIG_KEYS[n]))
    requires s !in m.entries.Values
    ensures STRATEGY_TYPES[n] !in m.entries
    ensures PlanRegistered(config, OM.Set(m, STRATEGY_TYPES[n], s), n + 1)
  {
    RegisterStep(m, config, n, s);
    InjectiveAfterSetNew(m, STRATEGY_TYPES[n], s);
  }

  /** Adding an unused strategy under a new name keeps every registered strategy unused. */
  lemma AddUnused(m: OM.ValidMap<AuthStrategy>, name: string, s: AuthStrategy)
    requires name !in m.entries && AllUnused(m) && Unused(s)
    ensures AllUnused(OM.Set(m, name, s))
  {
    OM.ValueSetAfterSetNew(m, name, s);
  }

  class SoapPassport {
    const config: Record
    /** The Passport instance the module talks to. */
    const adapter: Adapter
    /** The registry of the authentication module, by strategy name in insertion order. */
    var registry: OM.ValidMap<AuthStrategy>

    /** The registry holds, in order, the strategies for the truthy configuration keys of the slots before `n`. */
    ghost predicate RegisteredUpTo(n: nat)
      reads this, registry.entries.Values
    {
      Registered(config, registry, n)
    }

    /** The strategies the constructor registers, one per truthy configuration key. */
    constructor (config: Record, adapter: Adapter)
      ensures this.config == config && this.adapter == adapter
      ensures registry.keys == Names(Plan(config))
      ensures PlanHeld(registry, Plan(config))
      ensures Injective(registry)
      ensures forall s :: s in registry.entries.Values ==> s.initCount == 0 && s.middlewares == OM.Empty() && s.routes == OM.Empty()
      ensures forall s :: s in registry.entries.Values ==> fresh(s)
    {
      this.config := config;
      this.adapter := adapter;
      registry := OM.Empty();
      new;
      assert registry.entries.Values == {};
      RegisterConfigured();
    }

    /** The constructor's seven `if (this.config.<key>)` blocks, one per slot, in slot order. */
    method RegisterConfigured()
      requires RegisteredUpTo(0)
      modifies this
      ensures RegisteredUpTo(SLOTS)
      ensures forall s :: s in registry.entries.Values ==> s in old(registry.entries.Values) || fresh(s)
    {
      for slot := 0 to SLOTS
        invariant RegisteredUpTo(slot)
        invariant forall s :: s in registry.entries.Values ==> s in old(registry.entries.Values) || fresh(s)
      {
        RegisterSlot(slot);
      }
    }

    /** One `if (this.config.<key>) { addStrategy(<type>, new <Strategy>(this.config.<key>)) }` of the constructor. */
    method RegisterSlot(n: nat)
      requires n < SLOTS && RegisteredUpTo(n)
      modifies this
      ensures RegisteredUpTo(n + 1)
      ensures forall s :: s in registry.entries.Values ==> s in old(registry.entries.Values) || fresh(s)
    {
      var section := Get(config, CONFIG_KEYS[n]);
      if Truthy(section) {
        RegisterNew(n, SchemeFor(n, section));
      } else {
        SkipStep(config, n);
      }
    }

    /** The body of one such `if`: a new strategy of the slot's scheme, added under the slot's name. */
    method RegisterNew(n: nat, scheme: Scheme)
      requires n < SLOTS && RegisteredUpTo(n)
      requires Truthy(Get(config, CONFIG_KEYS[n])) && scheme == SchemeFor(n, Get(config, CONFIG_KEYS[n]))
      modifies this
      ensures RegisteredUpTo(n + 1)
      ensures forall s :: s in registry.entries.Values ==> s in old(registry.entries.Values) || fresh(s)
    {
      ghost var before := registry;
      var s := new AuthStrategy(scheme);
      RegisterPlanned(config, registry, n, s);
      AddUnused(registry, STRATEGY_TYPES[n], s);
      AddStrategy(STRATEGY_TYPES[n], s);
      OM.ValueSetAfterSetNew(before, STRATEGY_TYPES[n], s);
    }

    /** `addStrategy(name, strategy)`: stores the strategy under its name. */
    method AddStrategy(name: string, s: AuthStrategy)
      modifies this
      ensures registry == OM.Set(old(registry), name, s)
      ensures GetStrategy(name) == Some(s)
    {
      registry := OM.Set(registry, name, s);
    }

    /** `getStrategy(name)`. */
    function GetStrategy(name: string): (r: Option<AuthStrategy>)
      reads this
      ensures r.Some? <==> name in registry.entries
      ensures r.Some? ==> r.value == registry.entries[name] && r.value in registry.entries.Values
    {
      OM.Get(registry, name)
    }

    /** `init(options)`. */
    method Init(options: Value) returns (components: seq<Component>)
      modifies adapter, registry.entries.Values
      ensures components == Components(config, options)
      ensures adapter.log == old(adapter.log) + HookCalls(config, options) + StrategyCalls(registry.keys, registry.entries)
      ensures forall s :: s in registry.entries.Values ==>
        s.initCount == old(s.initCount) + Occurrences(registry.keys, registry.entries, s) &&
        s.middlewares == InitMiddlewares(s.scheme, old(s.middlewares)) &&
        s.routes == InitRoutes(s.scheme, old(s.routes))
      ensures Injective(registry) ==> forall s :: s in registry.entries.Values ==> s.initCount == old(s.initCount) + 1
    {
      components := Install(options);
      InitStrategies();
    }

    /** The component list and the session hooks: everything `init` does before the strategies. */
    method Install(options: Value) returns (components: seq<Component>)
      modifies adapter
      ensures components == Components(config, options)
      ensures adapter.log == old(adapter.log) + HookCalls(config, options)
    {
      components := [];
      var session := Get(config, "sessionOptions");
      if Truthy(session) {
        var c := adapter.Session();
        components := components + [c];
        var serialize := GetProp(session, "serialize");
        if Truthy(serialize) {
          adapter.SerializeUser(serialize);
        }
        var deserialize := GetProp(session, "deserialize");
        if Truthy(deserialize) {
          adapter.DeserializeUser(deserialize);
        }
      }
      var c := adapter.Initialize(options);
      components := components + [c];
    }

    /** `this.strategies.forEach((strategy) => strategy.init())`, in registration order. */
    method InitStrategies()
      modifies adapter, registry.entries.Values
      ensures adapter.log == old(adapter.log) + StrategyCalls(registry.keys, registry.entries)
      ensures forall s :: s in registry.entries.Values ==>
        s.initCount == old(s.initCount) + Occurrences(registry.keys, registry.entries, s) &&
        s.middlewares == InitMiddlewares(s.scheme, old(s.middlewares)) &&
        s.routes == InitRoutes(s.scheme, old(s.routes))
      ensures Injective(registry) ==> forall s :: s in registry.entries.Values ==> s.initCount == old(s.initCount) + 1
    {
      ghost var start := map o | o in registry.entries.Values :: o.Snapshot();
      InitEach(adapter, registry.keys, registry.entries, start);
      InitialisedAll(registry, start);
    }
  }

  /**
   * `new SoapPassport(config)` followed by `init(options)`: the components,
   * the hook calls then every registered strategy's calls in registration
   * order, and every registered strategy initialised exactly once from its
   * empty maps.
   */
  method ConstructAndInit(config: Record, adapter: Adapter, options: Value) returns (sp: SoapPassport, components: seq<Component>)
    modifies adapter
    ensures sp.config == config && sp.adapter == adapter
    ensures sp.registry.keys == Names(Plan(config)) && PlanHeld(sp.registry, Plan(config))
    ensures components == Components(config, options)
    ensures adapter.log == old(adapter.log) + HookCalls(config, options) + StrategyCalls(sp.registry.keys, sp.registry.entries)
    ensures forall s :: s in sp.registry.entries.Values ==>
      s.initCount == 1 && s.middlewares == InitMiddlewares(s.scheme, OM.Empty()) && s.routes == InitRoutes(s.scheme, OM.Empty())
  {
    sp := new SoapPassport(config, adapter);
    components := InitUnused(sp, options);
  }

  /** `init(options)` on an orchestrator whose strategies are stored once each and have never been initialised. */
  method InitUnused(sp: SoapPassport, options: Value) returns (components: seq<Component>)
    requires Injective(sp.registry) && AllUnused(sp.registry)
    modifies sp.adapter, sp.registry.entries.Values
    ensures components == Components(sp.config, options)
    ensures sp.adapter.log == old(sp.adapter.log) + HookCalls(sp.config, options) + StrategyCalls(sp.registry.keys, sp.registry.entries)
    ensures forall s :: s in sp.registry.entries.Values ==>
      s.initCount == 1 && s.middlewares == InitMiddlewares(s.scheme, OM.Empty()) && s.routes == InitRoutes(s.scheme, OM.Empty())
  {
    components := sp.Init(options);
  }

  /** The `forEach` over the registry's keys, in order. */
  method InitEach(adapter: Adapter, keys: seq<string>, entries: map<string, AuthStrategy>, ghost start: map<AuthStrategy, State>)
    requires forall k :: k in keys ==> k in entries
    requires forall o :: o in entries.Values ==> o in start && start[o] == o.Snapshot()
    modifies adapter, entries.Values
    ensures adapter.log == old(adapter.log) + StrategyCalls(keys, entries)
    ensures InitialisedUpTo(keys, entries, start, |keys|)
  {
    NothingInitialisedYet(keys, entries, start);
    var i := 0;
    while i < |keys|
      invariant 0 <= i <= |keys|
      invariant adapter.log == old(adapter.log) + StrategyCalls(keys[..i], entries)
      invariant InitialisedUpTo(keys, entries, start, i)
    {
      InitAt(adapter, keys, entries, old(adapter.log), start, i);
      i := i + 1;
    }
    assert keys[..i] == keys;
  }

  /** Every registered object has been initialised once per occurrence among `keys[..i]`, counting from its state in `start`. */
  ghost predicate InitialisedUpTo(keys: seq<string>, entries: map<string, AuthStrategy>, start: map<AuthStrategy, State>, i: nat)
    requires forall k :: k in keys ==> k in entries
    requires i <= |keys|
    reads entries.Values
  {
    forall o :: o in entries.Values ==> o in start && o.Snapshot() == AfterInits(o.scheme, start[o], Occurrences(keys[..i], entries, o))
  }

  /** Before the first turn nothing has been called and every object is in its starting state. */
  lemma NothingInitialisedYet(keys: seq<string>, entries: map<string, AuthStrategy>, start: map<AuthStrategy, State>)
    requires forall k :: k in keys ==> k in entries
    requires forall o :: o in entries.Values ==> o in start && start[o] == o.Snapshot()
    ensures StrategyCalls(keys[..0], entries) == []
    ensures InitialisedUpTo(keys, entries, start, 0)
  {
    assert keys[..0] == [];
  }

  /** After a run over all the keys, every object has been initialised once per name it is stored under, and once when no object is stored twice. */
  lemma InitialisedAll(m: OM.ValidMap<AuthStrategy>, start: map<AuthStrategy, State>)
    requires InitialisedUpTo(m.keys, m.entries, start, |m.keys|)
    ensures forall s :: s in m.entries.Values ==>
      s in start && s.initCount == start[s].inits + Occurrences(m.keys, m.entries, s) &&
      s.middlewares == InitMiddlewares(s.scheme, start[s].middlewares) &&
      s.routes == InitRoutes(s.scheme, start[s].routes)
    ensures Injective(m) ==> forall s :: s in m.entries.Values ==> s in start && s.initCount == start[s].inits + 1
  {
    assert m.keys[..|m.keys|] == m.keys;
    EveryObjectOccurs(m);
    if Injective(m) {
      EveryObjectOnce(m);
    }
  }

  /** One turn of the `forEach`: `init()` on the strategy stored under `keys[i]`. */
  method InitAt(adapter: Adapter, keys: seq<string>, entries: map<string, AuthStrategy>, ghost log: seq<Call>, ghost start: map<AuthStrategy, State>, i: nat)
    requires forall k :: k in keys ==> k in entries
    requires i < |keys|
    requires adapter.log == log + StrategyCalls(keys[..i], entries)
    requires InitialisedUpTo(keys, entries, start, i)
    modifies adapter, entries[keys[i]]
    ensures adapter.log == log + StrategyCalls(keys[..i + 1], entries)
    ensures InitialisedUpTo(keys, entries, start, i + 1)
  {
    var s := entries[keys[i]];
    StrategyCallsStep(keys, entries, i);
    AppendStep(log, StrategyCalls(keys[..i], entries), InitCalls(s.scheme), StrategyCalls(keys[..i + 1], entries));
    ghost var before := s.Snapshot();
    s.Init(adapter);
    InitialisedStep(keys, entries, start, i, before);
  }

  /** The turn for `keys[i]` counts one more `init` for its object and none for the others. */
  lemma InitialisedStep(keys: seq<string>, entries: map<string, AuthStrategy>, start: map<AuthStrategy, State>, i: nat, before: State)
    requires forall k :: k in keys ==> k in entries
    requires i < |keys|
    requires forall o :: o in entries.Values && o != entries[keys[i]] ==>
      o in start && o.Snapshot() == AfterInits(o.scheme, start[o], Occurrences(keys[..i], entries, o))
    requires entries[keys[i]] in start
    requires before == AfterInits(entries[keys[i]].scheme, start[entries[keys[i]]], Occurrences(keys[..i], entries, entries[keys[i]]))
    requires entries[keys[i]].Snapshot() == AfterInits(entries[keys[i]].scheme, before, 1)
    ensures InitialisedUpTo(keys, entries, start, i + 1)
  {
    var s := entries[keys[i]];
    forall o | o in entries.Values
      ensures o in start && o.Snapshot() == AfterInits(o.scheme, start[o], Occurrences(keys[..i + 1], entries, o))
    {
      OccurrencesStep(keys, entries, i, o);
      if o == s {
        AfterInitsStep(o.scheme, start[o], Occurrences(keys[..i], entries, o));
      }
    }
  }
}
