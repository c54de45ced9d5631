/**
 Publication of model routes through the shared gateway. A publisher secures the rate-limit key
 before it exposes its route and gives it up only after the route is gone. Every method below runs
 against an API server on which other publishers act between any two of its calls.
 */
module Publisher {
  import opened Text
  import opened Sets
  import opened RateLimit

  const MAX_UPDATE_RETRIES := 5

  /** A model route: the header value it selects and whether its deletion is in progress. */
  datatype Route = Route(model: string, terminating: bool)

  /** The gateway objects: the plugin with its ledger, and the model routes by owner id. */
  datatype Gateway = Gateway(ledger: Ledger, routes: map<string, Route>)

  datatype Action =
    | Limit(commit: Commit)
    | ApplyRoute(owner: string, model: string)
    | DeleteRoute(owner: string)
    | RouteGone(owner: string)

  /** The order a publisher keeps: secure the key before the route, clean up only without the route. */
  predicate Allowed(g: Gateway, a: Action) {
    match a
    case Limit(Ensured(_, _)) => true
    case Limit(Cleaned(_, o, _)) => o !in g.routes
    case ApplyRoute(o, model) => (Trim(model), o) in g.ledger.secured
    case DeleteRoute(o) => o in g.routes
    case RouteGone(o) => o in g.routes && g.routes[o].terminating
  }

  function Step(g: Gateway, a: Action): Gateway {
    if !Allowed(g, a) then g
    else match a
      case Limit(c) => g.(ledger := Apply(g.ledger, c))
      case ApplyRoute(o, model) => g.(routes := g.routes[o := Route(model, o in g.routes && g.routes[o].terminating)])
      case DeleteRoute(o) => g.(routes := g.routes[o := g.routes[o].(terminating := true)])
      case RouteGone(o) => g.(routes := g.routes - {o})
  }

  function Run(g: Gateway, actions: seq<Action>): Gateway {
    if actions == [] then g else Step(Run(g, actions[..|actions| - 1]), actions[|actions| - 1])
  }

  ghost predicate RoutesSecured(g: Gateway) {
    && Sound(g.ledger)
    && forall o :: o in g.routes ==> (Trim(g.routes[o].model), o) in g.ledger.secured
  }

  lemma StepKeepsSecured(g: Gateway, a: Action)
    requires RoutesSecured(g)
    ensures RoutesSecured(Step(g, a))
  {
    if a.Limit? && Allowed(g, a) {
      match a.commit {
        case Ensured(m, o) => EnsureKeepsSound(g.ledger, m, o);
        case Cleaned(m, o, keep) => CleanupKeepsSound(g.ledger, m, o, keep);
      }
    }
  }

  lemma {:induction false} RunKeepsSecured(g: Gateway, actions: seq<Action>)
    requires RoutesSecured(g)
    ensures RoutesSecured(Run(g, actions))
  {
    if actions != [] {
      RunKeepsSecured(g, actions[..|actions| - 1]);
      StepKeepsSecured(Run(g, actions[..|actions| - 1]), actions[|actions| - 1]);
    }
  }

  /** At every point of every run, a route that selects a trimmed model name has its rate-limit key. */
  lemma EveryRouteIsLimited(g: Gateway, actions: seq<Action>, at: nat, owner: string)
    requires RoutesSecured(g) && at <= |actions|
    requires owner in Run(g, actions[..at]).routes
    ensures var now := Run(g, actions[..at]);
            var model := now.routes[owner].model;
            Trim(model) == model ==> Protected(now.ledger.plugin, model, owner)
  {
    RunKeepsSecured(g, actions[..at]);
    var now := Run(g, actions[..at]);
    assert (Trim(now.routes[owner].model), owner) in now.ledger.secured;
  }

  /** Publishing a name with surrounding space limits another key: exactly those names escape the limit. */
  lemma FirstPublishLimitsItsModel(g: Gateway, owner: string, model: string)
    requires model !in Keys(g.ledger.plugin.entries)
    ensures var now := Run(g, [Limit(Ensured(Trim(model), owner)), ApplyRoute(owner, model)]);
            && owner in now.routes && now.routes[owner].model == model
            && (model in Keys(now.ledger.plugin.entries) <==> Trim(model) == model)
  {
    var first, second := Limit(Ensured(Trim(model), owner)), ApplyRoute(owner, model);
    assert [first, second][..1] == [first] && [first][..0] == [];
    assert Run(g, [first]) == Step(Run(g, []), first);
    assert Run(g, [first, second]) == Step(Run(g, [first]), second);
    KeysAppend(g.ledger.plugin.entries, Object(Some(Trim(model)), Some(DEFAULT_QPS)));
  }

  lemma SpacedNameEscapes(g: Gateway, owner: string)
    requires " m" !in Keys(g.ledger.plugin.entries)
    ensures var now := Run(g, [Limit(Ensured(Trim(" m"), owner)), ApplyRoute(owner, " m")]);
            owner in now.routes && now.routes[owner].model == " m" && " m" !in Keys(now.ledger.plugin.entries)
  {
    FirstPublishLimitsItsModel(g, owner, " m");
    assert Trim(" m") != " m";
  }

  // ---- The namespace a route is published in and looked up in ----

  function RouteNamespace(configured: string, runtime: string): string {
    if configured != "" then configured else runtime
  }

  function OwnerId(namespace: string, name: string): string {
    Trim(namespace) + "/" + Trim(name)
  }

  /**
   Publishing falls back to the runtime's namespace, withdrawing to the empty one: after a publication
   the withdrawal looks at the published route if and only if a route namespace is configured.
   */
  lemma WithdrawalSeesRoute(g: Gateway, configured: string, runtime: string, name: string, model: string)
    requires !Blank(runtime)
    requires OwnerId(RouteNamespace(configured, configured), name) !in g.routes
    ensures var published := OwnerId(RouteNamespace(configured, runtime), name);
            var withdrawn := OwnerId(RouteNamespace(configured, configured), name);
            var now := Run(g, [Limit(Ensured(Trim(model), published)), ApplyRoute(published, model)]);
            published in now.routes && (withdrawn in now.routes <==> configured != "")
  {
    var published := OwnerId(RouteNamespace(configured, runtime), name);
    var first, second := Limit(Ensured(Trim(model), published)), ApplyRoute(published, model);
    assert [first, second][..1] == [first] && [first][..0] == [];
    assert Run(g, [first]) == Step(Run(g, []), first);
    assert Run(g, [first, second]) == Step(Run(g, [first]), second);
    if configured == "" {
      assert |published| > |OwnerId("", name)|;
    }
  }

  // ---- Interference by other publishers ----

  /** The publisher an action belongs to; the API server itself finishes deletions. */
  predicate By(a: Action, owner: string) {
    match a
    case Limit(c) => c.owner == owner
    case ApplyRoute(o, _) => o == owner
    case DeleteRoute(o) => o == owner
    case RouteGone(_) => false
  }

  function Own(actions: seq<Action>, owner: string): (r: seq<Action>)
    ensures (forall i :: 0 <= i < |actions| ==> !By(actions[i], owner)) ==> r == []
  {
    if actions == [] then []
    else
      var rest := Own(actions[..|actions| - 1], owner);
      if By(actions[|actions| - 1], owner) then rest + [actions[|actions| - 1]] else rest
  }

  /** The models that list `owner`. */
  ghost function Listing(p: Plugin, owner: string): set<string> {
    set m | m in Refs(p) && owner in Refs(p)[m]
  }

  /** What actions of others leave alone for `owner`. */
  ghost predicate KeptFor(g: Gateway, g': Gateway, owner: string) {
    && g.ledger.version <= g'.ledger.version
    && (g.ledger.version == g'.ledger.version ==> g.ledger.plugin == g'.ledger.plugin)
    && (forall m :: (m, owner) in g.ledger.secured ==> (m, owner) in g'.ledger.secured)
    && Listing(g.ledger.plugin, owner) == Listing(g'.ledger.plugin, owner)
    && (owner !in g.routes ==> owner !in g'.routes)
  }

  lemma OthersKeep(g: Gateway, a: Action, owner: string)
    requires !By(a, owner)
    ensures KeptFor(g, Step(g, a), owner)
  {
    if a.Limit? {
      ListingKept(g.ledger, a.commit, owner);
    }
  }

  lemma ListingKept(l: Ledger, c: Commit, owner: string)
    requires c.owner != owner
    ensures Listing(Apply(l, c).plugin, owner) == Listing(l.plugin, owner)
  {
    forall m ensures m in Listing(Apply(l, c).plugin, owner) <==> m in Listing(l.plugin, owner) {
      OthersKeepListing(l, c, owner, m);
    }
  }

  lemma {:induction false} OthersKeepAll(g: Gateway, actions: seq<Action>, owner: string)
    requires forall i :: 0 <= i < |actions| ==> !By(actions[i], owner)
    ensures KeptFor(g, Run(g, actions), owner)
  {
    if actions != [] {
      var before := actions[..|actions| - 1];
      OthersKeepAll(g, before, owner);
      OthersKeep(Run(g, before), actions[|actions| - 1], owner);
    }
  }

  lemma {:induction false} RunAppend(g: Gateway, first: seq<Action>, second: seq<Action>)
    ensures Run(g, first + second) == Run(Run(g, first), second)
  {
    if second == [] {
      assert first + second == first;
    } else {
      var before := second[..|second| - 1];
      RunAppend(g, first, before);
      assert (first + second)[..|first + second| - 1] == first + before;
    }
  }

  lemma {:induction false} OwnAppend(first: seq<Action>, second: seq<Action>, owner: string)
    ensures Own(first + second, owner) == Own(first, owner) + Own(second, owner)
  {
    if second == [] {
      assert first + second == first;
    } else {
      OwnAppend(first, second[..|second| - 1], owner);
      assert (first + second)[..|first + second| - 1] == first + second[..|second| - 1];
    }
  }

  // ---- The API server and the publisher's calls ----

  /** How one call to the API server ends. */
  datatype Fault = Delivered | Lost | AppliedThenLost

  datatype PatchResult = Patched | Conflict | Failed

  /** The part of an owner id before the first slash, and the part after it. */
  function Cut(owner: string): (r: Option<(string, string)>)
    ensures r.Some? ==> owner == r.value.0 + "/" + r.value.1 && '/' !in r.value.0
    ensures r.None? ==> '/' !in owner
  {
    if owner == "" then None
    else if owner[0] == '/' then Some(("", owner[1..]))
    else
      match Cut(owner[1..])
      case None => None
      case Some(parts) => Some(([owner[0]] + parts.0, parts.1))
  }

  /** Does another live route of the same namespace select the model? `None` is the error for a bad owner id. */
  function HasModelRoute(routes: map<string, Route>, model: string, withdrawn: string): Option<bool> {
    match Cut(withdrawn)
    case None => None
    case Some((namespace, name)) =>
      if namespace == "" || name == "" then None
      else Some(exists o :: o in routes && o != withdrawn && !routes[o].terminating && routes[o].model == model
                            && Cut(o).Some? && Cut(o).value.0 == namespace)
  }

  /** The two owner ids are of routes of one namespace. */
  ghost predicate SameNamespace(a: string, b: string) {
    exists namespace, x, y :: '/' !in namespace && a == namespace + "/" + x && b == namespace + "/" + y
  }

  /** An owner id with a namespace and a name. */
  ghost predicate ProperId(owner: string) {
    exists namespace, name :: '/' !in namespace && namespace != "" && name != "" && owner == namespace + "/" + name
  }

  lemma {:induction false} CutIs(owner: string, namespace: string, name: string)
    requires '/' !in namespace && owner == namespace + "/" + name
    ensures Cut(owner) == Some((namespace, name))
  {
    if namespace == "" {
      assert owner[1..] == name;
    } else {
      assert owner[1..] == namespace[1..] + "/" + name && namespace == [namespace[0]] + namespace[1..];
      CutIs(owner[1..], namespace[1..], name);
    }
  }

  /** Another route of the owner's namespace, not on its way out, selects the model. */
  ghost predicate SelectedElsewhere(routes: map<string, Route>, model: string, owner: string) {
    exists o :: o in routes && o != owner && !routes[o].terminating && routes[o].model == model && SameNamespace(owner, o)
  }

  lemma SameNamespaceIsCut(a: string, b: string)
    ensures SameNamespace(a, b) <==> Cut(a).Some? && Cut(b).Some? && Cut(a).value.0 == Cut(b).value.0
  {
    if SameNamespace(a, b) {
      var namespace, x, y :| '/' !in namespace && a == namespace + "/" + x && b == namespace + "/" + y;
      CutIs(a, namespace, x);
      CutIs(b, namespace, y);
    }
  }

  lemma ModelRouteIs(routes: map<string, Route>, model: string, owner: string)
    ensures HasModelRoute(routes, model, owner).Some? <==> ProperId(owner)
    ensures ProperId(owner) ==> (HasModelRoute(routes, model, owner).value <==> SelectedElsewhere(routes, model, owner))
  {
    if ProperId(owner) {
      var namespace, name :| '/' !in namespace && namespace != "" && name != "" && owner == namespace + "/" + name;
      CutIs(owner, namespace, name);
    }
    forall o ensures SameNamespace(owner, o) <==> Cut(owner).Some? && Cut(o).Some? && Cut(owner).value.0 == Cut(o).value.0 {
      SameNamespaceIsCut(owner, o);
    }
  }

  /** The ownership annotation decodes, and names no blank model or owner. */
  ghost predicate Legible(p: Plugin) {
    p.ownership.Decoded? && forall m :: m in p.ownership.refs ==> !Blank(m) && forall o :: o in p.ownership.refs[m] ==> !Blank(o)
  }

  lemma ReadableIsLegible(p: Plugin)
    ensures Readable(p.ownership) <==> Legible(p)
  {
    if Readable(p.ownership) {
      forall m, o | m in p.ownership.refs && o in p.ownership.refs[m] ensures !Blank(o) {
        var i :| 0 <= i < |p.ownership.refs[m]| && p.ownership.refs[m][i] == o;
      }
    }
  }

  // ---- What an undisturbed call does ----

  /** An undisturbed ensure can be made. */
  ghost predicate CanEnsure(g: Gateway, model: string, owner: string) {
    model != "" && owner != "" && Legal(g.ledger.plugin.entries) && Legible(g.ledger.plugin)
  }

  /** The model has a key, and the owner is listed where the key is new or managed; nothing else changes. */
  ghost predicate EnsuredOnly(g: Gateway, g': Gateway, model: string, owner: string) {
    var p, p' := g.ledger.plugin, g'.ledger.plugin;
    && g'.routes == g.routes && Keys(p'.entries) == Keys(p.entries) + {model}
    && (forall m, o :: Lists(p', m, o) <==>
          Lists(p, m, o) || (m == model && o == owner && (model !in Keys(p.entries) || model in Refs(p))))
  }

  lemma EnsureIs(g: Gateway, model: string, owner: string)
    ensures EnsuredOnly(g, Step(g, Limit(Ensured(model, owner))), model, owner)
  {
    var p, p' := g.ledger.plugin, Step(g, Limit(Ensured(model, owner))).ledger.plugin;
    EnsureLimits(p, model, owner);
    forall m, o ensures Lists(p', m, o) <==>
                          Lists(p, m, o) || (m == model && o == owner && (model !in Keys(p.entries) || model in Refs(p))) {
      EnsureLists(p, model, owner, m, o);
    }
  }

  /** An undisturbed cleanup of the owner under this model can be made. */
  ghost predicate CanClean(g: Gateway, model: string, owner: string) {
    var p := g.ledger.plugin;
    Sole(p, model, owner) ==> ProperId(owner) && (SelectedElsewhere(g.routes, model, owner) || Legal(p.entries))
  }

  /**
   The owner is no longer listed under the model. The key of the model goes exactly when nobody else owned
   it, no other route of the namespace selects it and it is not the only key.
   */
  ghost predicate CleanedOnly(g: Gateway, g': Gateway, model: string, owner: string) {
    var p, p' := g.ledger.plugin, g'.ledger.plugin;
    && g'.routes == g.routes && (forall m, o :: Lists(p', m, o) <==> Lists(p, m, o) && !(m == model && o == owner))
    && Keys(p'.entries) == if Sole(p, model, owner) && !SelectedElsewhere(g.routes, model, owner) && |Keys(p.entries)| > 1
                           then Keys(p.entries) - {model} else Keys(p.entries)
  }

  lemma CleanupIs(g: Gateway, model: string, owner: string, keep: bool)
    requires owner !in g.routes && Lists(g.ledger.plugin, model, owner)
    requires Sole(g.ledger.plugin, model, owner) ==> (keep <==> SelectedElsewhere(g.routes, model, owner))
    ensures CleanedOnly(g, Step(g, Limit(Cleaned(model, owner, keep))), model, owner)
  {
    var p, p' := g.ledger.plugin, Step(g, Limit(Cleaned(model, owner, keep))).ledger.plugin;
    CleanupLimits(p, model, owner, keep);
    forall m, o ensures Lists(p', m, o) <==> Lists(p, m, o) && !(m == model && o == owner) {
      CleanupLists(p, model, owner, keep, m, o);
    }
  }

  /** What an undisturbed cleanup of an owner comes to. */
  ghost predicate CleanupOutcome(g: Gateway, g': Gateway, owner: string, ok: bool) {
    var listed := Listing(g.ledger.plugin, owner);
    && (!ok ==> g' == g)
    && (owner == "" || !Legible(g.ledger.plugin) ==> !ok)
    && (owner != "" && Legible(g.ledger.plugin) && listed == {} ==> ok && g' == g)
    && (ok && listed != {} ==> exists m :: m in listed && CanClean(g, m, owner) && CleanedOnly(g, g', m, owner))
    && (owner != "" && Legible(g.ledger.plugin) && (forall m :: m in listed ==> CanClean(g, m, owner)) ==> ok)
  }

  lemma OutcomeOf(g: Gateway, g': Gateway, model: string, owner: string, ok: bool)
    requires owner != "" && Legible(g.ledger.plugin) && Lists(g.ledger.plugin, model, owner) && (ok <==> CanClean(g, model, owner))
    requires if ok then CleanedOnly(g, g', model, owner) else g' == g
    ensures CleanupOutcome(g, g', owner, ok)
  {
    assert model in Listing(g.ledger.plugin, owner);
  }

  lemma OutcomeUnlisted(g: Gateway, owner: string)
    requires owner != "" && Legible(g.ledger.plugin) && forall m :: m in Refs(g.ledger.plugin) ==> owner !in Refs(g.ledger.plugin)[m]
    ensures Listing(g.ledger.plugin, owner) == {} && CleanupOutcome(g, g, owner, true)
  {
  }

  class ApiServer {
    var g: Gateway
    var calls: nat
    /** What others do before each call, and how each call ends. */
    const env: nat -> seq<Action>
    const faults: nat -> Fault
    ghost const start: Gateway
    ghost var history: seq<Action>

    ghost predicate Valid()
      reads this
    {
      g == Run(start, history)
    }

    ghost predicate OthersOnly(owner: string) {
      forall i: nat, k :: 0 <= k < |env(i)| ==> !By(env(i)[k], owner)
    }

    /** Nobody else acts, and every call is delivered. */
    ghost predicate Calm() {
      forall i: nat :: env(i) == [] && faults(i).Delivered?
    }

    /** Whatever the publisher's calls and the others did, every route on the server is still secured. */
    lemma AlwaysSecured()
      requires Valid() && RoutesSecured(start)
      ensures RoutesSecured(g)
    {
      RunKeepsSecured(start, history);
    }

    constructor (g: Gateway, env: nat -> seq<Action>, faults: nat -> Fault)
      ensures Valid() && this.g == g && history == [] && start == g
      ensures this.env == env && this.faults == faults
    {
      this.g, this.calls, this.env, this.faults := g, 0, env, faults;
      this.start, this.history := g, [];
    }

    /** Starts a call: others act first, then the call's fate is drawn. */
    method Enter(ghost owner: string) returns (fault: Fault)
      requires Valid() && OthersOnly(owner)
      modifies this`g, this`calls, this`history
      ensures Valid() && KeptFor(old(g), g, owner)
      ensures old(history) <= history && Own(history, owner) == Own(old(history), owner)
      ensures Calm() ==> g == old(g) && fault.Delivered?
      ensures calls == old(calls) + 1 && fault == faults(old(calls))
    {
      ghost var actions := env(calls);
      OthersKeepAll(g, actions, owner);
      RunAppend(start, history, actions);
      OwnAppend(history, actions, owner);
      var others := env(calls);
      g := Run(g, others);
      history := history + actions;
      fault := faults(calls);
      calls := calls + 1;
    }

    method GetPlugin(ghost owner: string) returns (read: Option<(Plugin, nat)>)
      requires Valid() && OthersOnly(owner)
      modifies this`g, this`calls, this`history
      ensures Valid() && KeptFor(old(g), g, owner)
      ensures old(history) <= history && Own(history, owner) == Own(old(history), owner)
      ensures read.Some? ==> read.value == (g.ledger.plugin, g.ledger.version)
      ensures Calm() ==> read.Some? && g == old(g)
      ensures calls == old(calls) + 1 && (read.Some? <==> faults(old(calls)).Delivered?)
    {
      var fault := Enter(owner);
      read := if fault.Delivered? then Some((g.ledger.plugin, g.ledger.version)) else None;
    }

    /** Records that `a`, an action of `owner`, takes effect now. */
    method Act(a: Action, ghost owner: string)
      requires Valid() && Allowed(g, a) && By(a, owner)
      modifies this`g, this`history
      ensures Valid() && g == Step(old(g), a)
      ensures history == old(history) + [a] && Own(history, owner) == Own(old(history), owner) + [a]
    {
      OwnAppend(history, [a], owner);
      assert Own([a], owner) == [a];
      assert (history + [a])[..|history|] == history;
      g := Step(g, a);
      history := history + [a];
    }

    /** A merge patch under an optimistic lock: it applies only to the version it was computed from. */
    method PatchPlugin(base: (Plugin, nat), p: Plugin, commit: Commit) returns (r: PatchResult)
      requires Valid() && OthersOnly(commit.owner)
      requires base.1 <= g.ledger.version && (base.1 == g.ledger.version ==> base.0 == g.ledger.plugin)
      requires Update(base.0, commit) == Some(p)
      requires commit.Cleaned? ==> commit.owner !in g.routes
      modifies this`g, this`calls, this`history
      ensures Valid() && old(history) <= history
      ensures !r.Patched? && Own(history, commit.owner) == Own(old(history), commit.owner) ==> KeptFor(old(g), g, commit.owner)
      ensures r.Conflict? ==> Own(history, commit.owner) == Own(old(history), commit.owner)
      ensures r.Patched? ==> Own(history, commit.owner) == Own(old(history), commit.owner) + [Limit(commit)]
      ensures commit.owner !in old(g).routes ==> commit.owner !in g.routes
      ensures r.Patched? ==> g.ledger.plugin == p
      ensures r.Patched? && commit.Ensured? ==> (commit.model, commit.owner) in g.ledger.secured
      ensures Own(history, commit.owner) in {Own(old(history), commit.owner), Own(old(history), commit.owner) + [Limit(commit)]}
      ensures Calm() && base.1 == old(g).ledger.version ==> r.Patched? && g == Step(old(g), Limit(commit))
      ensures calls == old(calls) + 1 && (r.Failed? <==> !faults(old(calls)).Delivered?)
    {
      var fault := Enter(commit.owner);
      if fault.Lost? {
        return Failed;
      }
      if g.ledger.version != base.1 {
        return if fault.Delivered? then Conflict else Failed;
      }
      ghost var before := g;
      Act(Limit(commit), commit.owner);
      assert g == Step(before, Limit(commit)) && g.ledger.plugin == p;
      r := if fault.Delivered? then Patched else Failed;
    }

    /** The plugin with `owner` under `model`, and within `None` when there is nothing to write; the outer `None` is an error. */
    static method PlanEnsure(plugin: Plugin, model: string, owner: string) returns (plan: Option<Option<Plugin>>)
      ensures plan.Some? <==> Legal(plugin.entries) && Legible(plugin)
      ensures plan.Some? ==> plan.value == EnsureUpdate(plugin, model, owner)
    {
      var keys := RateLimitEntries(plugin.entries);
      ReadableIsLegible(plugin);
      if keys.None? || !Readable(plugin.ownership) {
        return None;
      }
      var entries, owners := plugin.entries, plugin.ownership.refs;
      var changed := false;
      if model !in keys.value {
        entries := entries + [Object(Some(model), Some(DEFAULT_QPS))];
        owners := owners[model := (if model in owners then owners[model] else []) + [owner]];
        changed := true;
      } else if model in owners && owner !in owners[model] {
        owners := owners[model := owners[model] + [owner]];
        changed := true;
      }
      if !changed {
        return Some(None);
      }
      var stored := SetRateLimitOwners(owners);
      plan := Some(Some(Plugin(entries, Decoded(stored))));
    }

    /** One round of `EnsureRateLimit`: read, compute and patch; `Conflict` asks for another round. */
    method EnsureAttempt(model: string, owner: string) returns (r: PatchResult)
      requires Valid() && OthersOnly(owner)
      modifies this`g, this`calls, this`history
      ensures Valid() && old(history) <= history
      ensures Own(history, owner) in {Own(old(history), owner), Own(old(history), owner) + [Limit(Ensured(model, owner))]}
      ensures r.Conflict? ==> Own(history, owner) == Own(old(history), owner) && calls == old(calls) + 2
      ensures r.Patched? ==> Own(history, owner) == Own(old(history), owner) + [Limit(Ensured(model, owner))] && (model, owner) in g.ledger.secured
      ensures Calm() ==> !r.Conflict? && (r.Patched? <==> Legal(old(g).ledger.plugin.entries) && Legible(old(g).ledger.plugin))
      ensures Calm() ==> if r.Patched? then EnsuredOnly(old(g), g, model, owner) else g == old(g)
      ensures old(calls) < calls <= old(calls) + 2
      ensures r.Failed? ==> !faults(calls - 1).Delivered? || !Legal(g.ledger.plugin.entries) || !Legible(g.ledger.plugin)
    {
      EnsureIs(g, model, owner);
      var read := GetPlugin(owner);
      if read.None? {
        return Failed;
      }
      var plan := PlanEnsure(read.value.0, model, owner);
      if plan.None? {
        return Failed;
      }
      if plan.value.None? {
        Act(Limit(Ensured(model, owner)), owner);
        return Patched;
      }
      r := PatchPlugin(read.value, plan.value.value, Ensured(model, owner));
    }

    /**
     Secures the key of `model` for `owner`. Among any actions of others the call is a single ensure
     at one moment, or nothing; success means the pair is secured. It gives up only on a lost call, a
     plugin it cannot read, or five conflicts.
     */
    method EnsureRateLimit(model0: string, owner0: string) returns (ok: bool)
      requires Valid() && OthersOnly(Trim(owner0))
      modifies this`g, this`calls, this`history
      ensures Valid() && old(history) <= history
      ensures Own(history, Trim(owner0)) in
        {Own(old(history), Trim(owner0)), Own(old(history), Trim(owner0)) + [Limit(Ensured(Trim(model0), Trim(owner0)))]}
      ensures ok ==> Own(history, Trim(owner0)) == Own(old(history), Trim(owner0)) + [Limit(Ensured(Trim(model0), Trim(owner0)))]
      ensures ok ==> (Trim(model0), Trim(owner0)) in g.ledger.secured
      ensures Calm() ==> (ok <==> CanEnsure(old(g), Trim(model0), Trim(owner0)))
      ensures Calm() ==> if ok then EnsuredOnly(old(g), g, Trim(model0), Trim(owner0)) else g == old(g)
      ensures calls <= old(calls) + 10 && (ok ==> calls > old(calls))
      ensures !ok && Trim(model0) != "" && Trim(owner0) != "" ==>
                calls == old(calls) + 10 || (calls > 0 && !faults(calls - 1).Delivered?) || !Legal(g.ledger.plugin.entries) || !Legible(g.ledger.plugin)
    {
      var model, owner := Trim(model0), Trim(owner0);
      if model == "" || owner == "" {
        return false;
      }
      var attempt := 0;
      while attempt < MAX_UPDATE_RETRIES
        invariant Valid() && old(history) <= history
        invariant Own(history, owner) == Own(old(history), owner)
        invariant Calm() ==> g == old(g) && attempt == 0
        invariant attempt <= MAX_UPDATE_RETRIES && calls == old(calls) + 2 * attempt
      {
        var r := EnsureAttempt(model, owner);
        if !r.Conflict? {
          return r.Patched?;
        }
        attempt := attempt + 1;
      }
      ok := false;
    }

    /** The plugin without `owner` under `model`, computed from one read; it may list routes in between. */
    method PlanCleanup(plugin: Plugin, model: string, owner: string) returns (plan: Option<(Plugin, bool)>)
      requires Valid() && OthersOnly(owner) && Lists(plugin, model, owner)
      modifies this`g, this`calls, this`history
      ensures Valid() && KeptFor(old(g), g, owner)
      ensures old(history) <= history && Own(history, owner) == Own(old(history), owner)
      ensures plan.Some? ==> plan.value.0 == CleanupUpdate(plugin, model, owner, plan.value.1)
      ensures Calm() ==> g == old(g)
      ensures old(calls) <= calls <= old(calls) + 1
      ensures Calm() && plugin == g.ledger.plugin ==> (plan.Some? <==> CanClean(g, model, owner))
      ensures Calm() && plugin == g.ledger.plugin && plan.Some? && Sole(plugin, model, owner) ==>
                (plan.value.1 <==> SelectedElsewhere(g.routes, model, owner))
    {
      var entries, owners, keep := plugin.entries, plugin.ownership.refs, true;
      var refs := RemoveString(owners[model], owner);
      assert forall o :: o in refs <==> o in owners[model] && o != owner;
      if |refs| > 0 {
        assert refs[0] in refs;
        owners := owners[model := refs];
      } else {
        owners := owners - {model};
        var fault := Enter(owner);
        var selected := HasModelRoute(g.routes, model, owner);
        ModelRouteIs(g.routes, model, owner);
        if !fault.Delivered? || selected.None? {
          return None;
        }
        keep := selected.value;
        if !keep {
          var keys := RateLimitEntries(entries);
          if keys.None? {
            return None;
          }
          if |keys.value| > 1 {
            entries := RemoveRateLimitEntry(entries, model);
          }
        }
      }
      var stored := SetRateLimitOwners(owners);
      plan := Some((Plugin(entries, Decoded(stored)), keep));
    }

    /** One round of `CleanupRateLimit`: read, compute and patch; `Conflict` asks for another round. */
    method CleanupAttempt(owner: string) returns (r: PatchResult)
      requires Valid() && OthersOnly(owner) && owner !in g.routes
      modifies this`g, this`calls, this`history
      ensures Valid() && old(history) <= history && owner !in g.routes
      ensures CleanedOnce(Own(old(history), owner), Own(history, owner), owner)
      ensures r.Conflict? ==> Own(history, owner) == Own(old(history), owner) && KeptFor(old(g), g, owner)
      ensures r.Patched? && |old(Listing(g.ledger.plugin, owner))| <= 1 ==> Listing(g.ledger.plugin, owner) == {}
      ensures Calm() ==> !r.Conflict? && (owner != "" ==> CleanupOutcome(old(g), g, owner, r.Patched?))
      ensures calls <= old(calls) + 3
    {
      var read := GetPlugin(owner);
      ReadableIsLegible(g.ledger.plugin);
      if read.None? || !Readable(read.value.0.ownership) {
        return Failed;
      }
      var plugin, owners := read.value.0, read.value.0.ownership.refs;
      if forall m :: m in owners ==> owner !in owners[m] {
        if owner != "" {
          OutcomeUnlisted(g, owner);
        }
        return Patched;
      }
      var model :| model in owners && owner in owners[model];
      ghost var before := g;
      r := CleanupModel(read.value, model, owner);
      if Calm() && owner != "" {
        OutcomeOf(before, g, model, owner, r.Patched?);
      }
    }

    /** The rest of a round, for one model that lists the owner. */
    method CleanupModel(read: (Plugin, nat), model: string, owner: string) returns (r: PatchResult)
      requires Valid() && OthersOnly(owner) && owner !in g.routes && read == (g.ledger.plugin, g.ledger.version)
      requires Lists(read.0, model, owner) && Legible(read.0)
      modifies this`g, this`calls, this`history
      ensures Valid() && old(history) <= history && owner !in g.routes
      ensures CleanedOnce(Own(old(history), owner), Own(history, owner), owner)
      ensures r.Conflict? ==> Own(history, owner) == Own(old(history), owner) && KeptFor(old(g), g, owner)
      ensures r.Patched? && |old(Listing(g.ledger.plugin, owner))| <= 1 ==> Listing(g.ledger.plugin, owner) == {}
      ensures Calm() ==> !r.Conflict? && (r.Patched? <==> CanClean(old(g), model, owner))
      ensures Calm() ==> if r.Patched? then CleanedOnly(old(g), g, model, owner) else g == old(g)
      ensures calls <= old(calls) + 2
    {
      var plan := PlanCleanup(read.0, model, owner);
      if plan.None? {
        return Failed;
      }
      CleanupUnlists(read.0, model, owner, plan.value.1);
      if Calm() {
        CleanupIs(g, model, owner, plan.value.1);
      }
      r := PatchPlugin(read, plan.value.0, Cleaned(model, owner, plan.value.1));
    }

    /**
     Gives up the ownership of `owner`, whose route is absent. Among any actions of others the call is
     a single cleanup at one moment, or nothing; an owner of at most one model is then listed nowhere.
     */
    method CleanupRateLimit(owner0: string) returns (ok: bool)
      requires Valid() && OthersOnly(Trim(owner0)) && Trim(owner0) !in g.routes
      modifies this`g, this`calls, this`history
      ensures Valid() && old(history) <= history && Trim(owner0) !in g.routes
      ensures CleanedOnce(Own(old(history), Trim(owner0)), Own(history, Trim(owner0)), Trim(owner0))
      ensures ok && |old(Listing(g.ledger.plugin, Trim(owner0)))| <= 1 ==> Listing(g.ledger.plugin, Trim(owner0)) == {}
      ensures Calm() ==> CleanupOutcome(old(g), g, Trim(owner0), ok)
      ensures calls <= old(calls) + 15
    {
      var owner := Trim(owner0);
      if owner == "" {
        return false;
      }
      var attempt := 0;
      while attempt < MAX_UPDATE_RETRIES
        invariant Valid() && old(history) <= history && owner !in g.routes
        invariant Own(history, owner) == Own(old(history), owner)
        invariant Listing(g.ledger.plugin, owner) == old(Listing(g.ledger.plugin, owner))
        invariant Calm() ==> g == old(g) && attempt == 0
        invariant attempt <= MAX_UPDATE_RETRIES && calls <= old(calls) + 3 * attempt
      {
        var r := CleanupAttempt(owner);
        if !r.Conflict? {
          return r.Patched?;
        }
        attempt := attempt + 1;
      }
      ok := false;
    }

    /** Applies the route of an owner whose pair is secured. */
    method Expose(owner: string, model: string) returns (ok: bool)
      requires Valid() && OthersOnly(owner) && (Trim(model), owner) in g.ledger.secured
      modifies this`g, this`calls, this`history
      ensures Valid() && old(history) <= history
      ensures Own(history, owner) in {Own(old(history), owner), Own(old(history), owner) + [ApplyRoute(owner, model)]}
      ensures ok ==> Own(history, owner) == Own(old(history), owner) + [ApplyRoute(owner, model)]
      ensures ok ==> owner in g.routes && g.routes[owner].model == model && (Trim(model), owner) in g.ledger.secured
      ensures Calm() ==> ok && g == Step(old(g), ApplyRoute(owner, model))
      ensures calls == old(calls) + 1 && (ok <==> faults(old(calls)).Delivered?)
    {
      var fault := Enter(owner);
      if fault.Lost? {
        return false;
      }
      Act(ApplyRoute(owner, model), owner);
      ok := fault.Delivered?;
    }

    /** Exposes the route of `owner` for `model` after securing the key; a crash may end it after any call. */
    method Publish(owner: string, model: string) returns (ok: bool)
      requires Valid() && OthersOnly(owner) && Trim(owner) == owner
      modifies this`g, this`calls, this`history
      ensures Valid() && old(history) <= history
      ensures var before := Own(old(history), owner);
              Own(history, owner) in
                {before, before + [Limit(Ensured(Trim(model), owner))], before + [Limit(Ensured(Trim(model), owner))] + [ApplyRoute(owner, model)]}
      ensures ok ==> owner in g.routes && g.routes[owner].model == model && (Trim(model), owner) in g.ledger.secured
      ensures Calm() ==> (ok <==> CanEnsure(old(g), Trim(model), owner) && !(owner in old(g).routes && old(g).routes[owner].terminating))
      ensures Calm() && ok ==> g.routes == old(g).routes[owner := Route(model, false)]
      ensures ok ==> calls >= old(calls) + 3 && faults(calls - 1).Delivered?
    {
      if Blank(model) {
        return false;
      }
      var fault := Enter(owner);
      if !fault.Delivered? || (owner in g.routes && g.routes[owner].terminating) {
        return false;
      }
      ok := EnsureRateLimit(model, owner);
      if !ok {
        return;
      }
      ok := Expose(owner, model);
    }

    /** Requests deletion of the route; success means it is absent or on its way out. */
    method Withdraw(owner: string) returns (ok: bool)
      requires Valid() && OthersOnly(owner)
      modifies this`g, this`calls, this`history
      ensures Valid() && old(history) <= history
      ensures Own(history, owner) in {Own(old(history), owner), Own(old(history), owner) + [DeleteRoute(owner)]}
      ensures ok ==> owner !in g.routes || g.routes[owner].terminating
      ensures ok ==> calls > 0 && faults(calls - 1).Delivered? && calls == old(calls) + 1 + if Own(history, owner) == Own(old(history), owner) then 0 else 1
      ensures Calm() ==> ok && g.ledger == old(g).ledger
      ensures Calm() ==> g.routes == if owner in old(g).routes then old(g).routes[owner := old(g).routes[owner].(terminating := true)] else old(g).routes
    {
      var fault := Enter(owner);
      if !fault.Delivered? || owner !in g.routes {
        return fault.Delivered?;
      }
      fault := Enter(owner);
      if fault.Lost? || owner !in g.routes {
        return false;
      }
      Act(DeleteRoute(owner), owner);
      ok := fault.Delivered?;
    }

    /**
     Confirms the withdrawal: only once the route is absent does it clean up, and a confirmation means
     the route is absent. `grantGone` is the outcome of removing the backend grant.
     */
    method ConfirmWithdrawn(owner: string, grantGone: Option<bool>) returns (confirmed: Option<bool>)
      requires Valid() && OthersOnly(owner) && Trim(owner) == owner
      modifies this`g, this`calls, this`history
      ensures Valid() && old(history) <= history
      ensures CleanedOnce(Own(old(history), owner), Own(history, owner), owner)
      ensures confirmed == Some(true) ==> owner !in g.routes
      ensures confirmed == Some(true) && |old(Listing(g.ledger.plugin, owner))| <= 1 ==> Listing(g.ledger.plugin, owner) == {}
      ensures Calm() && owner in old(g).routes ==> confirmed == Some(false) && g == old(g)
      ensures Calm() && owner !in old(g).routes ==> exists ok :: CleanupOutcome(old(g), g, owner, ok) && confirmed == if ok then grantGone else None
    {
      var fault := Enter(owner);
      if !fault.Delivered? {
        return None;
      }
      if owner in g.routes {
        return Some(false);
      }
      var ok := CleanupRateLimit(owner);
      confirmed := if ok then grantGone else None;
    }
  }

  /** Of `owner`'s own actions, at most one cleanup was added. */
  ghost predicate CleanedOnce(before: seq<Action>, after: seq<Action>, owner: string) {
    after == before || exists m, keep :: after == before + [Limit(Cleaned(m, owner, keep))]
  }

  lemma CleanupUnlists(p: Plugin, model: string, owner: string, keep: bool)
    requires Lists(p, model, owner)
    ensures Listing(CleanupUpdate(p, model, owner, keep), owner) == Listing(p, owner) - {model}
    ensures |Listing(p, owner)| <= 1 ==> Listing(CleanupUpdate(p, model, owner, keep), owner) == {}
  {
    SubsetSize({model}, Listing(p, owner));
    if |Listing(p, owner)| <= 1 {
      forall m | m in Listing(p, owner) ensures m == model {
        SubsetSize({m, model}, Listing(p, owner));
      }
    }
  }
}
