/**
 The shared Higress rate-limit plugin: one versioned object that holds a list of limit keys and an
 annotation saying which routes own which key. Publishers read it, change it and write it back
 conditionally. This module gives the updates and the ledger of committed updates, and proves what
 every ledger keeps.
 */
module RateLimit {
  import opened Text
  import opened Sets
  import opened Sorting

  const DEFAULT_QPS := 10

  /** One element of `limit_keys`; `None` marks a field that is missing or has the wrong type. */
  datatype RawEntry = NotObject | Object(key: Option<string>, qps: Option<int>)

  /** The decoded ownership annotation; a blank annotation decodes to the empty map. */
  datatype Ownership = Undecodable | Decoded(refs: map<string, seq<string>>)

  datatype Plugin = Plugin(entries: seq<RawEntry>, ownership: Ownership)

  // ---- Lists of owners ----

  predicate Distinct<T(==)>(s: seq<T>) {
    forall i, j :: 0 <= i < j < |s| ==> s[i] != s[j]
  }

  /** Keeps the first occurrence of every value. */
  function Unique(s: seq<string>): (r: seq<string>)
    ensures Distinct(r)
    ensures forall x :: x in r <==> x in s
  {
    if s == [] then []
    else
      var x, rest := s[|s| - 1], s[..|s| - 1];
      if x in rest then Unique(rest) else Unique(rest) + [x]
  }

  function Without(s: seq<string>, unwanted: string): (r: seq<string>)
    ensures forall x :: x in r <==> x in s && x != unwanted
  {
    if s == [] then []
    else
      var x, rest := s[|s| - 1], s[..|s| - 1];
      if x == unwanted then Without(rest, unwanted) else Without(rest, unwanted) + [x]
  }

  method UniqueStrings(values: seq<string>) returns (result: seq<string>)
    ensures result == Unique(values)
  {
    var seen: set<string> := {};
    result := [];
    for i := 0 to |values|
      invariant result == Unique(values[..i])
      invariant seen == set x | x in values[..i]
    {
      assert values[..i + 1][..i] == values[..i];
      if values[i] !in seen {
        seen := seen + {values[i]};
        result := result + [values[i]];
      }
    }
    assert values[..|values|] == values;
  }

  method RemoveString(values: seq<string>, unwanted: string) returns (result: seq<string>)
    ensures result == Unique(Without(values, unwanted))
  {
    var kept := [];
    for i := 0 to |values|
      invariant kept == Without(values[..i], unwanted)
    {
      assert values[..i + 1][..i] == values[..i];
      if values[i] != unwanted {
        kept := kept + [values[i]];
      }
    }
    assert values[..|values|] == values;
    result := UniqueStrings(kept);
  }

  // ---- Reading the plugin ----

  predicate ValidEntry(e: RawEntry) {
    e.Object? && e.key.Some? && !Blank(e.key.value) && e.qps.Some? && e.qps.value >= 1
  }

  predicate HasKey(e: RawEntry, key: string) {
    e.Object? && e.key == Some(key)
  }

  function Keys(entries: seq<RawEntry>): (keys: set<string>)
    ensures forall k :: k in keys <==> exists i :: 0 <= i < |entries| && HasKey(entries[i], k)
  {
    set e | e in entries && e.Object? && e.key.Some? :: e.key.value
  }

  lemma KeysAppend(entries: seq<RawEntry>, e: RawEntry)
    ensures Keys(entries + [e]) == Keys(entries) + Keys([e])
    ensures Keys([e]) == if e.Object? && e.key.Some? then {e.key.value} else {}
  {
  }

  predicate ValidEntries(entries: seq<RawEntry>) {
    forall i :: 0 <= i < |entries| ==> ValidEntry(entries[i])
  }

  /** Every entry is an object with a key that is not blank and a rate of at least one. */
  ghost predicate Legal(entries: seq<RawEntry>) {
    forall e :: e in entries ==> match e
      case NotObject => false
      case Object(key, qps) => key.Some? && !Blank(key.value) && qps.Some? && 1 <= qps.value
  }

  /** Checks every entry and collects the keys; `None` is the error for a malformed entry. */
  method RateLimitEntries(entries: seq<RawEntry>) returns (keys: Option<set<string>>)
    ensures keys.Some? <==> Legal(entries)
    ensures keys.Some? ==> keys.value == Keys(entries)
  {
    var found: set<string> := {};
    for i := 0 to |entries|
      invariant ValidEntries(entries[..i])
      invariant found == Keys(entries[..i])
    {
      if !ValidEntry(entries[i]) {
        assert entries[i] in entries;
        return None;
      }
      assert entries[..i + 1] == entries[..i] + [entries[i]];
      found := found + {entries[i].key.value};
    }
    assert entries[..|entries|] == entries;
    assert forall i :: 0 <= i < |entries| ==> ValidEntry(entries[i]);
    keys := Some(found);
  }

  predicate Readable(o: Ownership) {
    && o.Decoded?
    && forall m :: m in o.refs ==> !Blank(m) && forall i :: 0 <= i < |o.refs[m]| ==> !Blank(o.refs[m][i])
  }

  function Refs(p: Plugin): map<string, seq<string>> {
    if p.ownership.Decoded? then p.ownership.refs else map[]
  }

  predicate Lists(p: Plugin, model: string, owner: string) {
    model in Refs(p) && owner in Refs(p)[model]
  }

  // ---- The two updates ----

  function Itself(s: string): string {
    s
  }

  /** An owner list as it is stored: sorted, without duplicates. */
  function TidyList(refs: seq<string>): (r: seq<string>)
    ensures Distinct(r) && forall x :: x in r <==> x in refs
  {
    InSorted(refs);
    Unique(Sorted(refs, Itself))
  }

  lemma InSorted(refs: seq<string>)
    ensures forall x :: x in Sorted(refs, Itself) <==> x in refs
  {
    assert forall x :: x in Sorted(refs, Itself) <==> x in multiset(refs);
  }

  /** What `setRateLimitOwners` stores. */
  function Tidy(refs: map<string, seq<string>>): map<string, seq<string>> {
    map m | m in refs :: TidyList(refs[m])
  }

  lemma {:induction false} UniqueKeepsOrder(s: seq<string>)
    requires SortedBy(s, Itself)
    ensures SortedBy(Unique(s), Itself)
  {
    if s != [] {
      var n := |s| - 1;
      UniqueKeepsOrder(s[..n]);
      forall x | x in s[..n] ensures !Less(s[n], x) {
        var i :| 0 <= i < n && s[i] == x;
      }
    }
  }

  lemma {:induction false} DistinctCount(s: seq<string>, x: string)
    requires Distinct(s)
    ensures multiset(s)[x] == if x in s then 1 else 0
  {
    if s != [] {
      var n := |s| - 1;
      assert s == s[..n] + [s[n]];
      DistinctCount(s[..n], x);
    }
  }

  /** Stored lists are canonical: lists of the same owners, in whatever order and however often, are stored alike. */
  lemma StoredAlike(a: seq<string>, b: seq<string>)
    ensures SortedBy(TidyList(a), Itself)
    ensures TidyList(a) == TidyList(b) <==> (forall x :: x in a <==> x in b)
  {
    var ta, tb := TidyList(a), TidyList(b);
    UniqueKeepsOrder(Sorted(a, Itself));
    UniqueKeepsOrder(Sorted(b, Itself));
    if forall x :: x in a <==> x in b {
      forall x ensures multiset(ta)[x] == multiset(tb)[x] {
        DistinctCount(ta, x);
        DistinctCount(tb, x);
      }
      SortedOrderUnique(ta, tb, Itself);
    } else {
      var x :| (x in a) != (x in b);
      assert (x in ta) != (x in tb);
    }
  }

  /** The plugin that publishing `model` for `owner` writes, or `None` when there is nothing to write. */
  function EnsureUpdate(p: Plugin, model: string, owner: string): Option<Plugin> {
    var refs := Refs(p);
    var mine := if model in refs then refs[model] else [];
    if model !in Keys(p.entries) then
      Some(Plugin(p.entries + [Object(Some(model), Some(DEFAULT_QPS))], Decoded(Tidy(refs[model := mine + [owner]]))))
    else if model in refs && owner !in mine then
      Some(Plugin(p.entries, Decoded(Tidy(refs[model := mine + [owner]]))))
    else
      None
  }

  /** Stores the owner lists; a separate step of both updates. */
  method SetRateLimitOwners(owners: map<string, seq<string>>) returns (stored: map<string, seq<string>>)
    ensures stored == Tidy(owners)
  {
    stored := owners;
    var left := owners.Keys;
    while left != {}
      invariant stored.Keys == owners.Keys && left <= owners.Keys
      invariant forall m :: m in owners ==> stored[m] == if m in left then owners[m] else TidyList(owners[m])
    {
      var m :| m in left;
      var refs := UniqueStrings(Sorted(owners[m], Itself));
      stored := stored[m := refs];
      left := left - {m};
    }
  }

  function DropKey(entries: seq<RawEntry>, model: string): (r: seq<RawEntry>)
    ensures Keys(r) == Keys(entries) - {model}
  {
    if entries == [] then []
    else
      var e, rest := entries[|entries| - 1], entries[..|entries| - 1];
      assert entries == rest + [e];
      KeysAppend(rest, e);
      KeysAppend(DropKey(rest, model), e);
      if HasKey(e, model) then DropKey(rest, model) else DropKey(rest, model) + [e]
  }

  method RemoveRateLimitEntry(entries: seq<RawEntry>, model: string) returns (kept: seq<RawEntry>)
    ensures kept == DropKey(entries, model)
  {
    kept := [];
    for i := 0 to |entries|
      invariant kept == DropKey(entries[..i], model)
    {
      assert entries[..i + 1][..i] == entries[..i];
      if !HasKey(entries[i], model) {
        kept := kept + [entries[i]];
      }
    }
    assert entries[..|entries|] == entries;
  }

  /** The plugin that withdrawing `owner` from `model` writes; `keep` says a route still selects the model. */
  function CleanupUpdate(p: Plugin, model: string, owner: string, keep: bool): Plugin
    requires Lists(p, model, owner)
  {
    var refs := Refs(p);
    var left := Unique(Without(refs[model], owner));
    if left != [] then
      Plugin(p.entries, Decoded(Tidy(refs[model := left])))
    else
      var entries := if !keep && |Keys(p.entries)| > 1 then DropKey(p.entries, model) else p.entries;
      Plugin(entries, Decoded(Tidy(refs - {model})))
  }

  // ---- What the updates do to keys and owners ----

  lemma TidyLists(refs: map<string, seq<string>>, model: string, owner: string)
    ensures Tidy(refs).Keys == refs.Keys
    ensures model in refs ==> (owner in Tidy(refs)[model] <==> owner in refs[model])
  {
  }

  /** After an ensure: the owner is listed under the model if the key is new or managed, and nobody else's listing changes. */
  lemma EnsureLists(p: Plugin, model: string, owner: string, m: string, o: string)
    ensures var p' := EnsureUpdate(p, model, owner);
            p'.Some? ==> (Lists(p'.value, m, o) <==> Lists(p, m, o) || (m == model && o == owner))
    ensures EnsureUpdate(p, model, owner).Some? <==>
              model !in Keys(p.entries) || (model in Refs(p) && owner !in Refs(p)[model])
  {
    var refs := Refs(p);
    var mine := if model in refs then refs[model] else [];
    TidyLists(refs[model := mine + [owner]], m, o);
  }

  /** After an ensure the model has a key, a new one with a rate of ten; a legal list stays legal. */
  lemma EnsureLimits(p: Plugin, model: string, owner: string)
    ensures var p' := EnsureUpdate(p, model, owner);
            var entries := if p'.Some? then p'.value.entries else p.entries;
            && entries == (if model in Keys(p.entries) then p.entries else p.entries + [Object(Some(model), Some(10))])
            && Keys(entries) == Keys(p.entries) + {model} && (Legal(p.entries) && !Blank(model) ==> Legal(entries))
  {
    KeysAppend(p.entries, Object(Some(model), Some(10)));
  }

  /** Nobody but `owner` is listed under the model. */
  ghost predicate Sole(p: Plugin, model: string, owner: string) {
    model in Refs(p) && forall o :: o in Refs(p)[model] ==> o == owner
  }

  /** After a cleanup exactly the owner's entry under the model is gone. */
  lemma CleanupLists(p: Plugin, model: string, owner: string, keep: bool, m: string, o: string)
    requires Lists(p, model, owner)
    ensures Lists(CleanupUpdate(p, model, owner, keep), m, o) <==> Lists(p, m, o) && !(m == model && o == owner)
  {
    var refs := Refs(p);
    var left := Unique(Without(refs[model], owner));
    TidyLists(refs[model := left], m, o);
    TidyLists(refs - {model}, m, o);
    assert o in left <==> o in refs[model] && o != owner;
  }

  /** After a cleanup the key is gone exactly when the owner was the last one, no route needs the key and it is not the only one. */
  lemma CleanupLimits(p: Plugin, model: string, owner: string, keep: bool)
    requires Lists(p, model, owner)
    ensures Keys(CleanupUpdate(p, model, owner, keep).entries) ==
              if Sole(p, model, owner) && !keep && |Keys(p.entries)| > 1 then Keys(p.entries) - {model} else Keys(p.entries)
  {
    var left := Unique(Without(Refs(p)[model], owner));
    assert forall o :: o in left <==> o in Refs(p)[model] && o != owner;
    if left != [] {
      assert left[0] in left;
    }
  }

  // ---- The ledger of committed calls ----

  /** A call at the moment it takes effect. An ensure that finds nothing to write takes effect at its read. */
  datatype Commit = Ensured(model: string, owner: string) | Cleaned(model: string, owner: string, keep: bool)

  /** `secured` holds the (model, owner) pairs whose ensure took effect and whose cleanup has not. */
  datatype Ledger = Ledger(plugin: Plugin, version: nat, secured: set<(string, string)>)

  /** The plugin a commit writes, or `None` when it writes nothing. */
  function Update(p: Plugin, c: Commit): Option<Plugin> {
    match c
    case Ensured(m, o) => EnsureUpdate(p, m, o)
    case Cleaned(m, o, keep) => if Lists(p, m, o) then Some(CleanupUpdate(p, m, o, keep)) else None
  }

  function Apply(l: Ledger, c: Commit): (r: Ledger)
    ensures r.version == l.version ==> r.plugin == l.plugin
    ensures l.version <= r.version
  {
    var update := Update(l.plugin, c);
    var secured :=
      if c.Ensured? then l.secured + {(c.model, c.owner)}
      else if update.Some? then set s | s in l.secured && s.1 != c.owner
      else l.secured;
    if update.Some? then Ledger(update.value, l.version + 1, secured) else l.(secured := secured)
  }

  function ApplyAll(l: Ledger, cs: seq<Commit>): Ledger {
    if cs == [] then l else Apply(ApplyAll(l, cs[..|cs| - 1]), cs[|cs| - 1])
  }

  ghost predicate OwnedHaveKeys(p: Plugin) {
    Refs(p).Keys <= Keys(p.entries)
  }

  /** The route's model is limited, and no other route's cleanup can lift the limit. */
  ghost predicate Protected(p: Plugin, model: string, owner: string) {
    model in Keys(p.entries) && (model in Refs(p) ==> owner in Refs(p)[model])
  }

  ghost predicate Sound(l: Ledger) {
    && OwnedHaveKeys(l.plugin)
    && forall s :: s in l.secured ==> Protected(l.plugin, s.0, s.1)
  }

  lemma EnsureKeepsSound(l: Ledger, m: string, o: string)
    requires Sound(l)
    ensures Sound(Apply(l, Ensured(m, o)))
    ensures Protected(Apply(l, Ensured(m, o)).plugin, m, o)
  {
    var e := Object(Some(m), Some(DEFAULT_QPS));
    KeysAppend(l.plugin.entries, e);
    assert HasKey([e][0], m);
    var l' := Apply(l, Ensured(m, o));
    assert Keys(l.plugin.entries) <= Keys(l'.plugin.entries) && m in Keys(l'.plugin.entries);
    forall s | s in l.secured ensures Protected(l'.plugin, s.0, s.1) {
      assert Protected(l.plugin, s.0, s.1);
    }
  }

  lemma CleanupKeepsSound(l: Ledger, m: string, o: string, keep: bool)
    requires Sound(l)
    ensures Sound(Apply(l, Cleaned(m, o, keep)))
  {
    if Lists(l.plugin, m, o) {
      var l' := Apply(l, Cleaned(m, o, keep));
      forall s | s in l'.secured ensures Protected(l'.plugin, s.0, s.1) {
        assert Protected(l.plugin, s.0, s.1) && s.1 != o;
        if s.0 == m {
          assert s.1 in Without(Refs(l.plugin)[m], o);
        }
      }
    }
  }

  lemma {:induction false} SoundForever(l: Ledger, cs: seq<Commit>)
    requires Sound(l)
    ensures Sound(ApplyAll(l, cs))
  {
    if cs != [] {
      SoundForever(l, cs[..|cs| - 1]);
      var before := ApplyAll(l, cs[..|cs| - 1]);
      match cs[|cs| - 1] {
        case Ensured(m, o) => EnsureKeepsSound(before, m, o);
        case Cleaned(m, o, keep) => CleanupKeepsSound(before, m, o, keep);
      }
    }
  }

  /**
   Any number of ensures and cleanups by anybody: a route whose ensure took effect and whose own
   cleanup has not stays limited, and its model is unmanaged or lists the route as an owner.
   */
  lemma {:induction false} EnsuredStaysProtected(l: Ledger, cs: seq<Commit>, at: nat)
    requires Sound(l)
    requires at < |cs| && cs[at].Ensured?
    requires forall i :: at < i < |cs| && cs[i].Cleaned? ==> cs[i].owner != cs[at].owner
    ensures Protected(ApplyAll(l, cs).plugin, cs[at].model, cs[at].owner)
    ensures (cs[at].model, cs[at].owner) in ApplyAll(l, cs).secured
  {
    SoundForever(l, cs);
    SecuredStays(l, cs, at);
  }

  lemma {:induction false} SecuredStays(l: Ledger, cs: seq<Commit>, at: nat)
    requires at < |cs| && cs[at].Ensured?
    requires forall i :: at < i < |cs| && cs[i].Cleaned? ==> cs[i].owner != cs[at].owner
    ensures (cs[at].model, cs[at].owner) in ApplyAll(l, cs).secured
  {
    if at < |cs| - 1 {
      SecuredStays(l, cs[..|cs| - 1], at);
    }
  }

  // ---- What no run of updates destroys ----

  /** The entries of one key, in list order. */
  function Settings(entries: seq<RawEntry>, key: string): seq<RawEntry> {
    if entries == [] then []
    else
      var e, rest := entries[|entries| - 1], entries[..|entries| - 1];
      if HasKey(e, key) then Settings(rest, key) + [e] else Settings(rest, key)
  }

  lemma {:induction false} SettingsOfDrop(entries: seq<RawEntry>, model: string, key: string)
    requires key != model
    ensures Settings(DropKey(entries, model), key) == Settings(entries, key)
  {
    if entries != [] {
      SettingsOfDrop(entries[..|entries| - 1], model, key);
    }
  }

  /** A key nobody owns is an operator's key: one commit neither adopts, removes nor changes it. */
  lemma UnownedKeyKept(l: Ledger, c: Commit, key: string)
    requires key in Keys(l.plugin.entries) && key !in Refs(l.plugin)
    ensures var p := Apply(l, c).plugin;
            key in Keys(p.entries) && key !in Refs(p) && Settings(p.entries, key) == Settings(l.plugin.entries, key)
  {
    match c {
      case Ensured(m, o) =>
        if m !in Keys(l.plugin.entries) {
          var e := Object(Some(m), Some(DEFAULT_QPS));
          KeysAppend(l.plugin.entries, e);
          assert (l.plugin.entries + [e])[..|l.plugin.entries|] == l.plugin.entries;
        }
      case Cleaned(m, o, keep) =>
        if Lists(l.plugin, m, o) {
          SettingsOfDrop(l.plugin.entries, m, key);
        }
    }
  }

  lemma {:induction false} UnownedKeyKeptForever(l: Ledger, cs: seq<Commit>, key: string)
    requires key in Keys(l.plugin.entries) && key !in Refs(l.plugin)
    ensures var p := ApplyAll(l, cs).plugin;
            key in Keys(p.entries) && key !in Refs(p) && Settings(p.entries, key) == Settings(l.plugin.entries, key)
  {
    if cs != [] {
      UnownedKeyKeptForever(l, cs[..|cs| - 1], key);
      UnownedKeyKept(ApplyAll(l, cs[..|cs| - 1]), cs[|cs| - 1], key);
    }
  }

  lemma KeysNonempty(l: Ledger, c: Commit)
    requires Keys(l.plugin.entries) != {}
    ensures Keys(Apply(l, c).plugin.entries) != {}
  {
    match c {
      case Ensured(m, o) => KeysAppend(l.plugin.entries, Object(Some(m), Some(DEFAULT_QPS)));
      case Cleaned(m, o, keep) =>
        if |Keys(l.plugin.entries)| > 1 && Keys(l.plugin.entries) - {m} == {} {
          assert Keys(l.plugin.entries) <= {m};
          SubsetSize(Keys(l.plugin.entries), {m});
        }
    }
  }

  /** The gateway rejects an empty key list; no run of updates produces one. */
  lemma {:induction false} KeysNeverEmptied(l: Ledger, cs: seq<Commit>)
    requires Keys(l.plugin.entries) != {}
    ensures Keys(ApplyAll(l, cs).plugin.entries) != {}
  {
    if cs != [] {
      KeysNeverEmptied(l, cs[..|cs| - 1]);
      KeysNonempty(ApplyAll(l, cs[..|cs| - 1]), cs[|cs| - 1]);
    }
  }

  ghost predicate OnlyUnder(p: Plugin, owner: string, model: string) {
    forall m :: m in Refs(p) && owner in Refs(p)[m] ==> m == model
  }

  /** Only ensuring a model for an owner lists that owner under it. */
  lemma OnlyEnsuredIsListed(l: Ledger, c: Commit, owner: string, model: string)
    requires Lists(Apply(l, c).plugin, model, owner)
    ensures Lists(l.plugin, model, owner) || (c.Ensured? && c.owner == owner && c.model == model)
  {
    if c.Ensured? {
      EnsureLists(l.plugin, c.model, c.owner, model, owner);
    } else if Lists(l.plugin, c.model, c.owner) {
      CleanupLists(l.plugin, c.model, c.owner, c.keep, model, owner);
    }
  }

  /** A commit for one owner leaves the listing of every other alone. */
  lemma OthersKeepListing(l: Ledger, c: Commit, owner: string, model: string)
    requires c.owner != owner
    ensures Lists(Apply(l, c).plugin, model, owner) <==> Lists(l.plugin, model, owner)
  {
    if c.Ensured? {
      EnsureLists(l.plugin, c.model, c.owner, model, owner);
    } else if Lists(l.plugin, c.model, c.owner) {
      CleanupLists(l.plugin, c.model, c.owner, c.keep, model, owner);
    }
  }

  lemma StaysOnlyUnder(l: Ledger, c: Commit, owner: string, model: string)
    requires OnlyUnder(l.plugin, owner, model) && (c.Ensured? && c.owner == owner ==> c.model == model)
    ensures OnlyUnder(Apply(l, c).plugin, owner, model)
  {
    var p' := Apply(l, c).plugin;
    forall m | m in Refs(p') && owner in Refs(p')[m] ensures m == model {
      OnlyEnsuredIsListed(l, c, owner, m);
    }
  }

  /** An owner that only ever publishes one model is listed under no other one. */
  lemma {:induction false} OneModelPerOwner(l: Ledger, cs: seq<Commit>, owner: string, model: string)
    requires OnlyUnder(l.plugin, owner, model)
    requires forall i :: 0 <= i < |cs| && cs[i].Ensured? && cs[i].owner == owner ==> cs[i].model == model
    ensures OnlyUnder(ApplyAll(l, cs).plugin, owner, model)
  {
    if cs != [] {
      var before := cs[..|cs| - 1];
      assert forall i :: 0 <= i < |before| ==> before[i] == cs[i];
      OneModelPerOwner(l, before, owner, model);
      StaysOnlyUnder(ApplyAll(l, before), cs[|cs| - 1], owner, model);
    }
  }

  /** ... so once its cleanup has committed it is listed nowhere. */
  lemma {:induction false} CleanupForgetsOwner(l: Ledger, cs: seq<Commit>, owner: string, model: string, keep: bool)
    requires OnlyUnder(l.plugin, owner, model)
    requires forall i :: 0 <= i < |cs| && cs[i].Ensured? && cs[i].owner == owner ==> cs[i].model == model
    ensures var p := Apply(ApplyAll(l, cs), Cleaned(model, owner, keep)).plugin;
            forall m :: m in Refs(p) ==> owner !in Refs(p)[m]
  {
    OneModelPerOwner(l, cs, owner, model);
  }
}
