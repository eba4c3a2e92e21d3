/** validate-llm-catalogue.py: the cross-references of the model catalogue, and what passing the check guarantees. */
module Catalogue {
  import opened Basics

  // ----- the rendered catalogue -----

  datatype Entry = Entry(apiBase: string, underlying: Option<string>, maxInput: Option<int>, preemptible: bool, budgeted: bool)

  /** One fallback table of the router settings: entries of primary and targets, in order. */
  type Table = seq<(string, seq<string>)>

  datatype Proxy = Proxy(fallbacks: Table, contextFallbacks: Table)

  datatype State = State(
    models: map<string, seq<Entry>>, keys: map<string, Option<seq<string>>>, keyRoles: map<string, string>,
    backends: map<string, Option<int>>, routers: set<string>, proxies: seq<Proxy>, envRefs: seq<seq<string>>)

  // ----- the fallback map -----

  /** All entries, in the order the program meets them. */
  function AllPairs(proxies: seq<Proxy>): Table {
    if proxies == [] then [] else AllPairs(proxies[..|proxies| - 1]) + PairsOf(proxies[|proxies| - 1])
  }

  function PairsOf(p: Proxy): Table { p.fallbacks + p.contextFallbacks }

  /** The targets listed for a primary, in order. */
  function TargetsOf(pairs: Table, primary: string): seq<string> {
    if pairs == [] then []
    else
      var last := pairs[|pairs| - 1];
      TargetsOf(pairs[..|pairs| - 1], primary) + (if last.0 == primary then last.1 else [])
  }

  predicate Lists(pairs: Table, primary: string) { exists i | 0 <= i < |pairs| :: pairs[i].0 == primary }

  /** The map says of every primary what the tables say of it, and lists no other. */
  ghost predicate Gathers(fb: map<string, seq<string>>, pairs: Table) {
    && (forall p :: p in fb <==> Lists(pairs, p))
    && (forall p | p in fb :: fb[p] == TargetsOf(pairs, p))
  }

  lemma {:induction false} Unlisted(pairs: Table, primary: string)
    requires !Lists(pairs, primary)
    ensures TargetsOf(pairs, primary) == []
  {
    if pairs != [] {
      var before := pairs[..|pairs| - 1];
      assert Lists(before, primary) ==> Lists(pairs, primary) by {
        if i :| 0 <= i < |before| && before[i].0 == primary { assert pairs[i].0 == primary; }
      }
      Unlisted(before, primary);
    }
  }

  function Extended(fb: map<string, seq<string>>, p: string, targets: seq<string>): map<string, seq<string>> {
    fb[p := (if p in fb then fb[p] else []) + targets]
  }

  lemma GatherOne(fb: map<string, seq<string>>, pairs: Table, p: string, targets: seq<string>)
    requires Gathers(fb, pairs)
    ensures Gathers(Extended(fb, p, targets), pairs + [(p, targets)])
  {
    var more := pairs + [(p, targets)];
    assert more[..|pairs|] == pairs;
    forall q ensures Lists(more, q) <==> Lists(pairs, q) || q == p {
      if Lists(pairs, q) {
        var i :| 0 <= i < |pairs| && pairs[i].0 == q;
        assert more[i].0 == q;
      }
      if q == p { assert more[|pairs|].0 == q; }
    }
    if p !in fb { Unlisted(pairs, p); }
  }

  method AddTable(fb: map<string, seq<string>>, table: Table, ghost pairs: Table) returns (r: map<string, seq<string>>)
    requires Gathers(fb, pairs)
    ensures Gathers(r, pairs + table)
  {
    hide Gathers;
    r := fb;
    assert pairs + table[..0] == pairs;
    for i := 0 to |table|
      invariant Gathers(r, pairs + table[..i])
    {
      GatherOne(r, pairs + table[..i], table[i].0, table[i].1);
      assert pairs + table[..i + 1] == pairs + table[..i] + [(table[i].0, table[i].1)];
      r := Extended(r, table[i].0, table[i].1);
    }
    assert table[..|table|] == table;
  }

  /** fallback_map: primaries that occur several times, in one table or several, collect all their targets. */
  method FallbackMap(proxies: seq<Proxy>) returns (fb: map<string, seq<string>>)
    ensures Gathers(fb, AllPairs(proxies))
  {
    fb := map[];
    for i := 0 to |proxies|
      invariant Gathers(fb, AllPairs(proxies[..i]))
    {
      ghost var pairs := AllPairs(proxies[..i]);
      fb := AddTable(fb, proxies[i].fallbacks, pairs);
      fb := AddTable(fb, proxies[i].contextFallbacks, pairs + proxies[i].fallbacks);
      assert proxies[..i + 1][..i] == proxies[..i];
      assert pairs + proxies[i].fallbacks + proxies[i].contextFallbacks == pairs + PairsOf(proxies[i]);
    }
    assert proxies[..|proxies|] == proxies;
  }

  // ----- the service an apiBase names -----

  predicate Contains(s: string, t: string) { exists i | 0 <= i <= |s| :: t <= s[i..] }

  /** s.split(t, 1)[-1]: what follows the first t, or all of s. */
  function AfterFirst(s: string, t: string, rest: string): string {
    if t <= rest then rest[|t|..] else if rest == "" then s else AfterFirst(s, t, rest[1..])
  }

  /** s.split(c, 1)[0] */
  function Before(s: string, c: char): string {
    if s == "" || s[0] == c then "" else [s[0]] + Before(s[1..], c)
  }

  function ServiceOf(apiBase: string): Option<string> {
    if apiBase == "" || (!Contains(apiBase, "svc") && !Contains(apiBase, ".llm")) then None
    else Some(Before(Before(Before(AfterFirst(apiBase, "//", apiBase), '/'), ':'), '.'))
  }

  lemma {:induction false} BeforeKeeps(a: string, b: string, c: char)
    requires c !in a
    ensures Before(a + b, c) == a + Before(b, c)
  {
    if a == "" {
      assert a + b == b;
    } else {
      assert (a + b)[1..] == a[1..] + b && a == [a[0]] + a[1..];
      BeforeKeeps(a[1..], b, c);
    }
  }

  lemma {:induction false} AfterFirstKeeps(s: string, a: string, b: string)
    requires '/' !in a
    ensures AfterFirst(s, "//", a + ("//" + b)) == b
  {
    var rest := a + ("//" + b);
    if a == "" {
      assert rest == "//" + b && rest[2..] == b;
    } else {
      assert rest[1..] == a[1..] + ("//" + b) && rest[0] == a[0] && a[0] in a;
      AfterFirstKeeps(s, a[1..], b);
    }
  }

  /** The service is the first label of the host, whatever the scheme and whatever follows. */
  lemma ServiceIsFirstLabel(scheme: string, svc: string, rest: string)
    requires '/' !in scheme && '.' !in svc && ':' !in svc && '/' !in svc
    requires var base := scheme + ("//" + (svc + ("." + rest))); Contains(base, "svc") || Contains(base, ".llm")
    ensures ServiceOf(scheme + ("//" + (svc + ("." + rest)))) == Some(svc)
  {
    hide Contains;
    var base, tail := scheme + ("//" + (svc + ("." + rest))), "." + rest;
    AfterFirstKeeps(base, scheme, svc + tail);
    BeforeKeeps(svc, tail, '/');
    var host := Before(tail, '/');
    assert tail[0] == '.' && host == ['.'] + Before(tail[1..], '/');
    BeforeKeeps(svc, host, ':');
    var name := Before(host, ':');
    assert name == ['.'] + Before(host[1..], ':');
    BeforeKeeps(svc, name, '.');
    assert svc + "" == svc;
  }

  // ----- the nine rules, each as a condition on the catalogue -----

  type Fallbacks = map<string, seq<string>>

  predicate ScopesResolve(s: State) {
    forall k | k in s.keys && s.keys[k].Some? :: forall m | m in s.keys[k].value :: m in s.models
  }

  predicate FallbacksResolve(s: State, fb: Fallbacks) {
    forall p | p in fb :: p in s.models && forall t | t in fb[p] :: t in s.models
  }

  predicate KnownService(s: State, svc: string) { svc in s.backends || svc in s.routers || svc == "litellm" }

  /** The backend exists, and the entry advertises its window, or less on purpose. */
  predicate EntryOk(s: State, e: Entry) {
    match ServiceOf(e.apiBase)
    case None => true
    case Some(svc) =>
      && KnownService(s, svc)
      && (svc in s.backends && s.backends[svc].Some? && e.maxInput.Some? ==>
            e.maxInput.value == s.backends[svc].value || (e.maxInput.value < s.backends[svc].value && e.budgeted))
  }

  predicate EntriesOk(s: State) {
    forall n | n in s.models :: forall e | e in s.models[n] :: EntryOk(s, e)
  }

  predicate CoordinatorStays(fb: Fallbacks) { "coordinator" !in fb }

  predicate PreemptibleCovered(s: State, fb: Fallbacks) {
    forall n | n in s.models && n !in fb :: forall e | e in s.models[n] :: !e.preemptible
  }

  predicate ShareModel(s: State, a: string, b: string)
    requires a in s.models && b in s.models
  {
    exists e | e in s.models[a] :: exists f | f in s.models[b] :: e.underlying == f.underlying
  }

  predicate SameModel(s: State, fb: Fallbacks) {
    forall p | p in fb :: forall t | t in fb[p] :: p in s.models && t in s.models ==> ShareModel(s, p, t)
  }

  predicate ScopesClosed(s: State, fb: Fallbacks) {
    forall k | k in s.keys && s.keys[k].Some? ::
      forall m | m in s.keys[k].value && m in fb :: forall t | t in fb[m] :: t in s.keys[k].value
  }

  predicate EnvResolves(s: State) {
    forall i | 0 <= i < |s.envRefs| :: forall m | m in s.envRefs[i] :: m in s.models
  }

  predicate RoleOk(s: State, role: string) {
    && role in s.keyRoles && s.keyRoles[role] in s.keys && s.keys[s.keyRoles[role]].Some?
    && (set m | m in s.keys[s.keyRoles[role]].value) == {role}
  }

  predicate RolesOk(s: State) { RoleOk(s, "coder") && RoleOk(s, "worker") }

  predicate Valid(s: State, fb: Fallbacks) {
    && ScopesResolve(s) && FallbacksResolve(s, fb) && EntriesOk(s) && CoordinatorStays(fb) && PreemptibleCovered(s, fb)
    && SameModel(s, fb) && ScopesClosed(s, fb) && EnvResolves(s) && RolesOk(s)
  }

  // ----- the check -----

  datatype Finding =
    | UnknownInScope(key: string, model: string)
    | UnknownPrimary(model: string)
    | UnknownTarget(primary: string, model: string)
    | UnknownService(model: string, service: string)
    | WindowExceeds(model: string, service: string)
    | WindowDiffers(model: string, service: string)
    | CoordinatorFallsBack
    | NoFallback(model: string)
    | CrossesModels(primary: string, model: string)
    | ScopeNotClosed(key: string, model: string, target: string)
    | UnknownInEnv(model: string)
    | RoleMissing(role: string)
    | RoleUnscoped(role: string)
    | RoleScopeDiffers(role: string)

  /** Rule 1. */
  method CheckScopes(s: State) returns (errors: seq<Finding>)
    ensures errors == [] <==> ScopesResolve(s)
  {
    errors := [];
    var left := s.keys.Keys;
    while left != {}
      invariant left <= s.keys.Keys
      invariant errors == [] <==>
        forall k | k in s.keys && k !in left && s.keys[k].Some? :: forall m | m in s.keys[k].value :: m in s.models
      decreases |left|
    {
      var k :| k in left;
      if s.keys[k].Some? {
        var scope := s.keys[k].value;
        ghost var before := errors;
        for i := 0 to |scope|
          invariant errors == [] <==> before == [] && forall j | 0 <= j < i :: scope[j] in s.models
        {
          if scope[i] !in s.models {
            errors := errors + [UnknownInScope(k, scope[i])];
          }
        }
      }
      left := left - {k};
    }
  }

  /** Rule 2. */
  method CheckFallbacks(s: State, fb: Fallbacks) returns (errors: seq<Finding>)
    ensures errors == [] <==> FallbacksResolve(s, fb)
  {
    errors := [];
    var left := fb.Keys;
    while left != {}
      invariant left <= fb.Keys
      invariant errors == [] <==>
        forall p | p in fb && p !in left :: p in s.models && forall t | t in fb[p] :: t in s.models
      decreases |left|
    {
      var p :| p in left;
      if p !in s.models {
        errors := errors + [UnknownPrimary(p)];
      }
      ghost var before := errors;
      for i := 0 to |fb[p]|
        invariant errors == [] <==> before == [] && forall j | 0 <= j < i :: fb[p][j] in s.models
      {
        if fb[p][i] !in s.models {
          errors := errors + [UnknownTarget(p, fb[p][i])];
        }
      }
      left := left - {p};
    }
  }

  method CheckEntry(s: State, name: string, e: Entry) returns (errors: seq<Finding>)
    ensures errors == [] <==> EntryOk(s, e)
  {
    errors := [];
    var service := ServiceOf(e.apiBase);
    if service.None? {
      return;
    }
    var svc := service.value;
    if !KnownService(s, svc) {
      return [UnknownService(name, svc)];
    }
    if svc in s.backends && e.maxInput.Some? {
      var backend, declared := s.backends[svc], e.maxInput.value;
      if backend.Some? && declared != backend.value {
        if declared > backend.value {
          errors := [WindowExceeds(name, svc)];
        } else if !e.budgeted {
          errors := [WindowDiffers(name, svc)];
        }
      }
    }
  }

  /** Rules 3 and 4. */
  method CheckEntries(s: State) returns (errors: seq<Finding>)
    ensures errors == [] <==> EntriesOk(s)
  {
    hide EntryOk;
    errors := [];
    var left := s.models.Keys;
    while left != {}
      invariant left <= s.models.Keys
      invariant errors == [] <==> forall n | n in s.models && n !in left :: forall e | e in s.models[n] :: EntryOk(s, e)
      decreases |left|
    {
      var n :| n in left;
      ghost var before := errors;
      for i := 0 to |s.models[n]|
        invariant errors == [] <==> before == [] && forall j | 0 <= j < i :: EntryOk(s, s.models[n][j])
      {
        var found := CheckEntry(s, n, s.models[n][i]);
        errors := errors + found;
      }
      left := left - {n};
    }
  }

  /** Rules 5 and 6. */
  method CheckPlacement(s: State, fb: Fallbacks) returns (errors: seq<Finding>)
    ensures errors == [] <==> CoordinatorStays(fb) && PreemptibleCovered(s, fb)
  {
    errors := if "coordinator" in fb then [CoordinatorFallsBack] else [];
    var left := s.models.Keys;
    while left != {}
      invariant left <= s.models.Keys
      invariant errors == [] <==>
        CoordinatorStays(fb)
        && forall n | n in s.models && n !in left && n !in fb :: forall e | e in s.models[n] :: !e.preemptible
      decreases |left|
    {
      var n :| n in left;
      if n !in fb && exists e | e in s.models[n] :: e.preemptible {
        errors := errors + [NoFallback(n)];
      }
      left := left - {n};
    }
  }

  /** Rule 7, first half. */
  method CheckSameModel(s: State, fb: Fallbacks) returns (errors: seq<Finding>)
    ensures errors == [] <==> SameModel(s, fb)
  {
    hide ShareModel;
    errors := [];
    var left := fb.Keys;
    while left != {}
      invariant left <= fb.Keys
      invariant errors == [] <==>
        forall p | p in fb && p !in left :: forall t | t in fb[p] :: p in s.models && t in s.models ==> ShareModel(s, p, t)
      decreases |left|
    {
      var p :| p in left;
      ghost var before := errors;
      for i := 0 to |fb[p]|
        invariant errors == [] <==>
          before == [] && forall j | 0 <= j < i :: p in s.models && fb[p][j] in s.models ==> ShareModel(s, p, fb[p][j])
      {
        if p in s.models && fb[p][i] in s.models && !ShareModel(s, p, fb[p][i]) {
          errors := errors + [CrossesModels(p, fb[p][i])];
        }
      }
      left := left - {p};
    }
  }

  /** What a scope lacks. */
  method CheckScope(fb: Fallbacks, key: string, scope: seq<string>) returns (errors: seq<Finding>)
    ensures errors == [] <==> forall m | m in scope && m in fb :: forall t | t in fb[m] :: t in scope
  {
    errors := [];
    for i := 0 to |scope|
      invariant errors == [] <==> forall j | 0 <= j < i && scope[j] in fb :: forall t | t in fb[scope[j]] :: t in scope
    {
      if scope[i] in fb {
        var targets := fb[scope[i]];
        ghost var before := errors;
        for k := 0 to |targets|
          invariant errors == [] <==> before == [] && forall j | 0 <= j < k :: targets[j] in scope
        {
          if targets[k] !in scope {
            errors := errors + [ScopeNotClosed(key, scope[i], targets[k])];
          }
        }
      }
    }
  }

  /** Rule 7, second half. */
  method CheckClosure(s: State, fb: Fallbacks) returns (errors: seq<Finding>)
    ensures errors == [] <==> ScopesClosed(s, fb)
  {
    errors := [];
    var left := s.keys.Keys;
    while left != {}
      invariant left <= s.keys.Keys
      invariant errors == [] <==>
        forall k | k in s.keys && k !in left && s.keys[k].Some? ::
          forall m | m in s.keys[k].value && m in fb :: forall t | t in fb[m] :: t in s.keys[k].value
      decreases |left|
    {
      var k :| k in left;
      if s.keys[k].Some? {
        var found := CheckScope(fb, k, s.keys[k].value);
        errors := errors + found;
      }
      left := left - {k};
    }
  }

  /** Rule 8. */
  method CheckEnv(s: State) returns (errors: seq<Finding>)
    ensures errors == [] <==> EnvResolves(s)
  {
    errors := [];
    for i := 0 to |s.envRefs|
      invariant errors == [] <==> forall j | 0 <= j < i :: forall m | m in s.envRefs[j] :: m in s.models
    {
      ghost var before := errors;
      for k := 0 to |s.envRefs[i]|
        invariant errors == [] <==> before == [] && forall j | 0 <= j < k :: s.envRefs[i][j] in s.models
      {
        if s.envRefs[i][k] !in s.models {
          errors := errors + [UnknownInEnv(s.envRefs[i][k])];
        }
      }
    }
  }

  method CheckRole(s: State, role: string) returns (errors: seq<Finding>)
    requires forall r | r in s.keyRoles :: s.keyRoles[r] in s.keys
    ensures errors == [] <==> RoleOk(s, role)
  {
    if role !in s.keyRoles {
      return [RoleMissing(role)];
    }
    var actual := s.keys[s.keyRoles[role]];
    if actual.None? {
      return [RoleUnscoped(role)];
    }
    errors := if (set m | m in actual.value) != {role} then [RoleScopeDiffers(role)] else [];
  }

  /** check: no errors exactly when all nine rules hold. Every role's key is on record, as collect leaves it. */
  method Check(s: State) returns (errors: seq<Finding>, fb: Fallbacks)
    requires forall r | r in s.keyRoles :: s.keyRoles[r] in s.keys
    ensures Gathers(fb, AllPairs(s.proxies))
    ensures errors == [] <==> Valid(s, fb)
  {
    hide ScopesResolve, FallbacksResolve, EntriesOk, CoordinatorStays, PreemptibleCovered, SameModel, ScopesClosed,
         EnvResolves, RoleOk, Gathers;
    fb := FallbackMap(s.proxies);
    var one := CheckScopes(s);
    var two := CheckFallbacks(s, fb);
    var four := CheckEntries(s);
    var six := CheckPlacement(s, fb);
    var same := CheckSameModel(s, fb);
    var closed := CheckClosure(s, fb);
    var eight := CheckEnv(s);
    var coder := CheckRole(s, "coder");
    var worker := CheckRole(s, "worker");
    errors := one + two + four + six + same + closed + eight + coder + worker;
  }

  // ----- what a clean check guarantees -----

  /** Each model is a fallback of the one before it. */
  predicate Chain(fb: Fallbacks, path: seq<string>) {
    path != [] && forall i | 0 <= i < |path| - 1 :: path[i] in fb && path[i + 1] in fb[path[i]]
  }

  /** From a model in a key's scope no chain of fallbacks, of any length, leaves the scope or the published names. */
  lemma {:induction false} ChainsStayInScope(s: State, fb: Fallbacks, key: string, path: seq<string>)
    requires Valid(s, fb) && key in s.keys && s.keys[key].Some? && Chain(fb, path) && path[0] in s.keys[key].value
    ensures forall i | 0 <= i < |path| :: path[i] in s.keys[key].value && path[i] in s.models
    decreases |path|
  {
    if |path| > 1 {
      var before := path[..|path| - 1];
      assert forall i | 0 <= i < |before| :: before[i] == path[i];
      ChainsStayInScope(s, fb, key, before);
      assert path[|path| - 2] in fb && path[|path| - 1] in fb[path[|path| - 2]];
    }
  }

  /** No chain starts at the coordinator, and any other chain stays among published names. */
  lemma ChainsAvoidCoordinator(s: State, fb: Fallbacks, path: seq<string>)
    requires Valid(s, fb) && Chain(fb, path) && |path| > 1
    ensures path[0] != "coordinator" && forall i | 0 <= i < |path| :: path[i] in s.models
  {
    forall i | 0 <= i < |path| ensures path[i] in s.models {
      if i > 0 {
        assert path[i - 1] in fb && path[i - 1 + 1] in fb[path[i - 1]];
      } else {
        assert path[0] in fb;
      }
    }
    assert path[0] in fb;
  }

  /** No entry advertises a larger window than the backend it resolves to. */
  lemma NoWindowExceedsItsBackend(s: State, fb: Fallbacks, name: string, e: Entry, svc: string)
    requires Valid(s, fb) && name in s.models && e in s.models[name] && ServiceOf(e.apiBase) == Some(svc)
    requires svc in s.backends && s.backends[svc].Some? && e.maxInput.Some?
    ensures e.maxInput.value <= s.backends[svc].value
    ensures e.maxInput.value < s.backends[svc].value ==> e.budgeted
  {
    assert EntryOk(s, e);
  }

  /** The coder's and the worker's keys are different, each opens its own model alone, and so what stands in for such a model
      can only be that model itself. */
  lemma RolesStandAlone(s: State, fb: Fallbacks, role: string, path: seq<string>)
    requires Valid(s, fb) && role in {"coder", "worker"}
    ensures "coder" in s.keyRoles && "worker" in s.keyRoles && s.keyRoles["coder"] != s.keyRoles["worker"]
    ensures s.keyRoles[role] in s.keys && s.keys[s.keyRoles[role]].Some?
    ensures forall m :: m in s.keys[s.keyRoles[role]].value <==> m == role
    ensures Chain(fb, path) && path[0] == role ==> forall i | 0 <= i < |path| :: path[i] == role
  {
    assert RoleOk(s, "coder") && RoleOk(s, "worker");
    assert "coder"[0] != "worker"[0];
    var scope := s.keys[s.keyRoles[role]].value;
    var models := set x | x in scope;
    assert RoleOk(s, role) && models == {role};
    assert forall m :: m in scope <==> m in models;
    if Chain(fb, path) && path[0] == role { ChainsStayInScope(s, fb, s.keyRoles[role], path); }
  }

  /** What consumers are told to use is published, and a published model on a preemptible host has stand-ins on record, each
      published and sharing an underlying model with it. */
  lemma UsedModelsAreServed(s: State, fb: Fallbacks, i: nat, m: string, e: Entry)
    requires Valid(s, fb)
    ensures i < |s.envRefs| && m in s.envRefs[i] ==> m in s.models
    ensures m in s.models && e in s.models[m] && e.preemptible ==>
              m in fb && forall t | t in fb[m] :: t in s.models && ShareModel(s, m, t)
  {
  }

  /** The underlying model of a name, when all its entries have the same one. */
  predicate Uniform(s: State, name: string) {
    name in s.models && s.models[name] != []
    && forall e | e in s.models[name] :: e.underlying == s.models[name][0].underlying
  }

  function ModelOf(s: State, name: string): Option<Option<string>> {
    if name in s.models && s.models[name] != [] then Some(s.models[name][0].underlying) else None
  }

  /** Each hop shares a model with the next; a whole chain keeps one model when every name on it has just one. */
  lemma {:induction false} UniformChainsKeepTheModel(s: State, fb: Fallbacks, path: seq<string>)
    requires Valid(s, fb) && Chain(fb, path) && forall i | 0 <= i < |path| :: Uniform(s, path[i])
    ensures ModelOf(s, path[|path| - 1]) == ModelOf(s, path[0])
    decreases |path|
  {
    if |path| > 1 {
      var n := |path| - 1;
      var before := path[..n];
      assert forall i | 0 <= i < |before| :: before[i] == path[i];
      UniformChainsKeepTheModel(s, fb, before);
      assert path[n - 1] in fb && path[n - 1 + 1] in fb[path[n - 1]];
      assert Uniform(s, path[n]) && Uniform(s, path[n - 1]);
      assert ShareModel(s, path[n - 1], path[n]);
      var e :| e in s.models[path[n - 1]] && exists f | f in s.models[path[n]] :: e.underlying == f.underlying;
      var f :| f in s.models[path[n]] && e.underlying == f.underlying;
    }
  }

  /** What the ends of a chain share is decided by the names between them: served by one model each, they pass it on. */
  lemma InnerNamesCarryTheModel(s: State, fb: Fallbacks, path: seq<string>)
    requires Valid(s, fb) && Chain(fb, path) && |path| >= 2
    requires forall i | 0 < i < |path| - 1 :: Uniform(s, path[i])
    ensures path[0] in s.models && path[|path| - 1] in s.models && ShareModel(s, path[0], path[|path| - 1])
  {
    hide Valid, Chain, Uniform, ShareModel, ModelOf;
    var n := |path| - 1;
    HopShares(s, fb, path, 0);
    HopShares(s, fb, path, n - 1);
    if n > 1 {
      var inner := path[1..n];
      InnerChain(fb, path);
      assert forall i | 0 <= i < |inner| :: inner[i] == path[i + 1];
      UniformChainsKeepTheModel(s, fb, inner);
      UniformEnd(s, path[1], path[0], path[n - 1], path[n]);
    }
  }

  lemma InnerChain(fb: Fallbacks, path: seq<string>)
    requires Chain(fb, path) && |path| > 2
    ensures Chain(fb, path[1..|path| - 1])
  {
    var inner := path[1..|path| - 1];
    assert forall i | 0 <= i < |inner| :: inner[i] == path[i + 1];
  }

  lemma HopShares(s: State, fb: Fallbacks, path: seq<string>, i: nat)
    requires Valid(s, fb) && Chain(fb, path) && i + 1 < |path|
    ensures path[i] in s.models && path[i + 1] in s.models && ShareModel(s, path[i], path[i + 1])
  {
    assert path[i] in fb && path[i + 1] in fb[path[i]];
  }

  lemma UniformEnd(s: State, first: string, a: string, last: string, c: string)
    requires Uniform(s, first) && Uniform(s, last) && ModelOf(s, first) == ModelOf(s, last)
    requires a in s.models && c in s.models && ShareModel(s, a, first) && ShareModel(s, last, c)
    ensures ShareModel(s, a, c)
  {
    var e :| e in s.models[a] && exists f | f in s.models[first] :: e.underlying == f.underlying;
    var d :| d in s.models[last] && exists f | f in s.models[c] :: d.underlying == f.underlying;
    var f :| f in s.models[c] && d.underlying == f.underlying;
    assert e.underlying == s.models[first][0].underlying == s.models[last][0].underlying == f.underlying;
  }

  /** Two hops over b end where they began, whatever a and c are published beside it. */
  ghost predicate SafeMiddle(s: State, b: string)
    requires b in s.models
  {
    forall t: State, a, c ::
      (a in t.models && c in t.models && b in t.models && t.models[b] == s.models[b]
       && ShareModel(t, a, b) && ShareModel(t, b, c)) ==> ShareModel(t, a, c)
  }

  /** A name can be crossed exactly when its entries have more than one underlying model. */
  lemma SafeMiddleIff(s: State, b: string)
    requires b in s.models && s.models[b] != []
    ensures SafeMiddle(s, b) <==> Uniform(s, b)
  {
    if Uniform(s, b) {
      forall t: State, a, c |
        a in t.models && c in t.models && b in t.models && t.models[b] == s.models[b] && ShareModel(t, a, b) && ShareModel(t, b, c)
        ensures ShareModel(t, a, c)
      {
        UniformEnd(t, b, a, b, c);
      }
    } else {
      var e, f := s.models[b][0], s.models[b][0];
      f :| f in s.models[b] && f.underlying != e.underlying;
      var a, c := "x" + b, "yz" + b;
      assert |a| == |b| + 1 && |c| == |b| + 2;
      var t := s.(models := s.models[a := [e]][c := [f]]);
      SharesEntry(t, a, b, e);
      SharesEntry(t, b, c, f);
      assert !ShareModel(t, a, c);
    }
  }

  /** Whatever the two models of the name in the middle are, two hops can cross models though the check is clean. */
  lemma MixedNamesCanCross(u: Option<string>, v: Option<string>) returns (s: State, fb: Fallbacks)
    requires u != v
    ensures Valid(s, fb) && Gathers(fb, AllPairs(s.proxies)) && Chain(fb, ["a", "b", "c"])
    ensures "a" in s.models && "c" in s.models && !ShareModel(s, "a", "c")
    ensures "b" in s.models && {u, v} == set e | e in s.models["b"] :: e.underlying
  {
    hide ScopesResolve, FallbacksResolve, EntriesOk, CoordinatorStays, PreemptibleCovered, SameModel, ScopesClosed,
         RolesOk, Gathers, Chain, ShareModel, AllPairs;
    var x, y := Entry("", u, None, false, false), Entry("", v, None, false, false);
    fb := map["a" := ["b"], "b" := ["c"]];
    var table := [("a", ["b"]), ("b", ["c"])];
    s := State(map["a" := [x], "b" := [x, y], "c" := [y], "coder" := [x], "worker" := [x]],
               map["coder" := Some(["coder"]), "worker" := Some(["worker"])],
               map["coder" := "coder", "worker" := "worker"],
               map[], {}, [Proxy(table, [])], []);
    MixedScopes(s, fb);
    MixedFallbacks(s, fb, x, y, u, v);
    MixedEntries(s, fb, x, y, u, v);
    NotShared(s, x, y);
    assert s.models["b"][0] == x && s.models["b"][1] == y;
    TwoHops(fb);
    GatherTwo(table, s.proxies, fb);
  }

  lemma MixedScopes(s: State, fb: Fallbacks)
    requires fb.Keys == {"a", "b"} && "coder" in s.models && "worker" in s.models
    requires s.keys == map["coder" := Some(["coder"]), "worker" := Some(["worker"])]
    requires s.keyRoles == map["coder" := "coder", "worker" := "worker"]
    ensures ScopesResolve(s) && ScopesClosed(s, fb) && RolesOk(s)
  {
    hide RoleOk;
    OwnScope(s, "coder");
    OwnScope(s, "worker");
  }

  lemma MixedFallbacks(s: State, fb: Fallbacks, x: Entry, y: Entry, u: Option<string>, v: Option<string>)
    requires x == Entry("", u, None, false, false) && y == Entry("", v, None, false, false)
    requires fb == map["a" := ["b"], "b" := ["c"]]
    requires s.models == map["a" := [x], "b" := [x, y], "c" := [y], "coder" := [x], "worker" := [x]]
    ensures FallbacksResolve(s, fb) && SameModel(s, fb)
  {
    hide EntryOk, ShareModel;
    SharesEntry(s, "a", "b", x);
    SharesEntry(s, "b", "c", y);
  }

  lemma MixedEntries(s: State, fb: Fallbacks, x: Entry, y: Entry, u: Option<string>, v: Option<string>)
    requires x == Entry("", u, None, false, false) && y == Entry("", v, None, false, false)
    requires fb == map["a" := ["b"], "b" := ["c"]]
    requires s.models == map["a" := [x], "b" := [x, y], "c" := [y], "coder" := [x], "worker" := [x]]
    ensures CoordinatorStays(fb) && PreemptibleCovered(s, fb) && EntriesOk(s)
  {
    hide EntryOk;
    NoService(s, x);
    NoService(s, y);
  }

  lemma NotShared(s: State, x: Entry, y: Entry)
    requires x.underlying != y.underlying
    requires "a" in s.models && "c" in s.models && s.models["a"] == [x] && s.models["c"] == [y]
    ensures !ShareModel(s, "a", "c")
  {
  }

  lemma TwoHops(fb: Fallbacks)
    requires fb == map["a" := ["b"], "b" := ["c"]]
    ensures Chain(fb, ["a", "b", "c"])
  {
  }

  lemma SharesEntry(s: State, a: string, b: string, e: Entry)
    requires a in s.models && b in s.models && e in s.models[a] && e in s.models[b]
    ensures ShareModel(s, a, b)
  {
  }

  lemma OwnScope(s: State, role: string)
    requires role in s.keyRoles && s.keyRoles[role] == role && role in s.keys && s.keys[role] == Some([role])
    ensures RoleOk(s, role)
  {
    assert (set m | m in [role]) == {role};
  }

  lemma NoService(s: State, e: Entry)
    requires e.apiBase == ""
    ensures EntryOk(s, e)
  {
  }

  lemma GatherNone()
    ensures Gathers(map[], [])
  {
  }

  lemma PairsOfOne(table: Table)
    ensures AllPairs([Proxy(table, [])]) == table
  {
    var proxies := [Proxy(table, [])];
    assert proxies[..0] == [] && AllPairs([]) == [];
    assert table + [] == table && [] + table == table;
  }

  lemma GatherTwo(table: Table, proxies: seq<Proxy>, fb: Fallbacks)
    requires table == [("a", ["b"]), ("b", ["c"])] && proxies == [Proxy(table, [])] && fb == map["a" := ["b"], "b" := ["c"]]
    ensures Gathers(fb, AllPairs(proxies))
  {
    hide Gathers, AllPairs;
    var one: Table := [("a", ["b"])];
    GatherNone();
    GatherOne(map[], [], "a", ["b"]);
    assert [] + ["b"] == ["b"] && [] + ["c"] == ["c"] && [] + one == one && one + [("b", ["c"])] == table;
    GatherOne(map["a" := ["b"]], one, "b", ["c"]);
    assert Extended(map[], "a", ["b"]) == map["a" := ["b"]];
    assert Extended(map["a" := ["b"]], "b", ["c"]) == fb;
    PairsOfOne(table);
  }
}
