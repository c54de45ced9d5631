/**
 Fenced deletion of runtime objects. Object names are reused, UIDs never; a delete carries the UID and
 version it was bound to, and any number of others write to the same API server.
 */
module FencedDelete {
  import opened Text

  datatype Kind = Deployment | LeaderWorkerSet | Service | Pod | InferenceService | OtherKind(name: string)

  datatype Key = Key(kind: Kind, namespace: string, name: string)

  /** An object incarnation. Versions are compared for equality only; 0 stands for a missing version. */
  datatype Object = Object(uid: string, version: nat, terminating: bool)

  datatype Server = Server(objects: map<Key, Object>, used: set<string>, clock: nat)

  /** What changes the server: writers create, update, terminate and remove objects; a fenced delete names UID and version. */
  datatype Action =
    | Create(key: Key, uid: string)
    | Touch(key: Key)
    | Terminate(key: Key)
    | Remove(key: Key)
    | Fenced(key: Key, uid: string, version: nat, atOnce: bool)

  function Put(s: Server, key: Key, o: Object): Server {
    Server(s.objects[key := o], s.used + {o.uid}, s.clock + 1)
  }

  function Drop(s: Server, key: Key): Server {
    s.(objects := s.objects - {key})
  }

  predicate Meets(s: Server, key: Key, uid: string, version: nat) {
    key in s.objects && s.objects[key].uid == uid && s.objects[key].version == version
  }

  /** One action; what is not possible changes nothing. Termination is never undone and an object keeps its UID. */
  function Step(s: Server, a: Action): Server {
    match a
    case Create(key, uid) => if key in s.objects || uid in s.used || uid == "" then s else Put(s, key, Object(uid, s.clock + 1, false))
    case Touch(key) => if key !in s.objects then s else Put(s, key, s.objects[key].(version := s.clock + 1))
    case Terminate(key) => if key !in s.objects then s else Put(s, key, s.objects[key].(version := s.clock + 1, terminating := true))
    case Remove(key) => Drop(s, key)
    case Fenced(key, uid, version, atOnce) =>
      if !Meets(s, key, uid, version) then s
      else if atOnce then Drop(s, key)
      else Put(s, key, s.objects[key].(version := s.clock + 1, terminating := true))
  }

  function Run(s: Server, actions: seq<Action>): Server {
    if actions == [] then s else Step(Run(s, actions[..|actions| - 1]), actions[|actions| - 1])
  }

  /** A persisted binding. */
  datatype Binding = Binding(key: Key, uid: string, version: nat, role: string)

  /** The UID was given out, and only under the bound name. */
  ghost predicate Genuine(s: Server, b: Binding) {
    b.uid in s.used && forall k :: k in s.objects && s.objects[k].uid == b.uid ==> k == b.key
  }

  /** The bound incarnation is gone or terminating. */
  ghost predicate Settled(s: Server, b: Binding) {
    forall k :: k in s.objects && s.objects[k].uid == b.uid ==> s.objects[k].terminating
  }

  lemma StepKeepsSettled(s: Server, a: Action, b: Binding)
    requires Genuine(s, b)
    ensures Genuine(Step(s, a), b) && (Settled(s, b) ==> Settled(Step(s, a), b))
  {
  }

  /** Gone stays gone: whatever anybody does, a settled incarnation never comes back. */
  lemma {:induction false} SettledForever(s: Server, actions: seq<Action>, b: Binding)
    requires Genuine(s, b)
    ensures Genuine(Run(s, actions), b) && (Settled(s, b) ==> Settled(Run(s, actions), b))
  {
    if actions != [] {
      SettledForever(s, actions[..|actions| - 1], b);
      StepKeepsSettled(Run(s, actions[..|actions| - 1]), actions[|actions| - 1], b);
    }
  }

  lemma {:induction false} RunAppend(s: Server, a: seq<Action>, b: seq<Action>)
    ensures Run(s, a + b) == Run(Run(s, a), b)
  {
    if b == [] {
      assert a + b == a;
    } else {
      RunAppend(s, a, b[..|b| - 1]);
      assert (a + b)[..|a + b| - 1] == a + b[..|b| - 1];
    }
  }

  datatype Fault = Delivered | Lost | AppliedThenLost

  datatype Reply = Done | NotFound | Conflict | Failed

  predicate Supported(kind: Kind) {
    !kind.OtherKind?
  }

  predicate Complete(b: Binding) {
    b.key.namespace != "" && b.key.name != "" && b.uid != "" && b.version != 0
  }

  /** With nobody interfering, what a delete succeeds on: nothing there, the bound version, or the bound UID already going. */
  predicate Deletable(s: Server, b: Binding) {
    && Complete(b) && b.key.kind in {Deployment, LeaderWorkerSet, Service, Pod, InferenceService}
    && (b.key in s.objects ==>
          s.objects[b.key].uid == b.uid && (s.objects[b.key].version == b.version || s.objects[b.key].terminating))
  }

  /** Once the bound incarnation is gone or going, deleting it again is refused exactly when another took its name. */
  lemma RefusedOnlyWhenReplaced(s: Server, b: Binding)
    requires Complete(b) && Supported(b.key.kind) && Settled(s, b)
    ensures Deletable(s, b) <==> (b.key in s.objects ==> s.objects[b.key].uid == b.uid)
  {
  }

  const NOTHING := Server(map[], {}, 0)

  /** The input: the bound object is removed and another of its name created. */
  lemma ReplacedIsRefused(key: Key)
    requires key.namespace != "" && key.name != "" && Supported(key.kind)
    ensures var created := Run(NOTHING, [Create(key, "a")]);
            var replaced := Run(NOTHING, [Create(key, "a"), Remove(key), Create(key, "b")]);
            var b := Binding(key, "a", 1, "runtime");
            Meets(created, key, "a", 1) && Genuine(replaced, b) && Settled(replaced, b) && !Deletable(replaced, b)
  {
    var actions := [Create(key, "a"), Remove(key), Create(key, "b")];
    assert actions[..2][..1] == actions[..1] == [Create(key, "a")] && actions[..1][..0] == [];
    var created := Run(NOTHING, actions[..1]);
    assert created == Step(Run(NOTHING, []), Create(key, "a"));
    assert Run(NOTHING, actions[..2]) == Step(created, Remove(key));
    assert Run(NOTHING, actions) == Step(Run(NOTHING, actions[..2]), Create(key, "b"));
  }

  predicate Deletes(b: Binding) {
    b.role == "" || b.role == "runtime" || b.role == "endpoint"
  }

  /** A binding of the runtime itself or of its endpoint; one without a role is of the runtime. */
  ghost predicate OfRuntime(b: Binding) {
    b.role in {"", "runtime", "endpoint"}
  }

  /** There is a runtime to delete, and with nobody interfering each of its bindings can be. */
  ghost predicate AllDeletable(s: Server, bindings: seq<Binding>) {
    && (exists b :: b in bindings && OfRuntime(b))
    && forall b :: b in bindings && OfRuntime(b) ==> Deletable(s, b)
  }

  /** The executor's view of the API server: before each call others act, and the call may be lost. */
  class Client {
    const others: nat -> seq<Action>
    const faults: nat -> Fault
    const atOnce: nat -> bool
    var server: Server
    var calls: nat
    ghost const start: Server
    ghost var history: seq<Action>
    /** The actions of this client among them. */
    ghost var own: seq<Action>

    ghost predicate Valid()
      reads this
    {
      server == Run(start, history)
    }

    ghost predicate Calm() {
      forall i: nat :: others(i) == [] && faults(i).Delivered?
    }

    /** Nothing that was settled came back, and bindings stay genuine. */
    twostate predicate Onward()
      reads this
    {
      forall b: Binding {:trigger Genuine(server, b)} {:trigger Settled(server, b)} ::
        Genuine(old(server), b) ==> Genuine(server, b) && (Settled(old(server), b) ==> Settled(server, b))
    }

    constructor (server: Server, others: nat -> seq<Action>, faults: nat -> Fault, atOnce: nat -> bool)
      ensures Valid() && this.server == server && start == server && history == [] && own == []
      ensures this.others == others && this.faults == faults && this.atOnce == atOnce
    {
      this.server, this.calls, this.others, this.faults, this.atOnce := server, 0, others, faults, atOnce;
      this.start, this.history, this.own := server, [], [];
    }

    method Enter() returns (fault: Fault)
      requires Valid()
      modifies this`server, this`calls, this`history
      ensures Valid() && Onward() && (Calm() ==> server == old(server) && fault.Delivered?)
    {
      var actions := others(calls);
      RunAppend(start, history, actions);
      forall b: Binding | Genuine(server, b)
        ensures Genuine(Run(server, actions), b) && (Settled(server, b) ==> Settled(Run(server, actions), b))
      {
        SettledForever(server, actions, b);
      }
      server, history := Run(server, actions), history + actions;
      fault := faults(calls);
      calls := calls + 1;
    }

    /** A delete request with both preconditions. */
    method RequestDelete(b: Binding) returns (r: Reply)
      requires Valid()
      modifies this
      ensures Valid() && Onward()
      ensures own == old(own) || exists now :: own == old(own) + [Fenced(b.key, b.uid, b.version, now)]
      ensures Genuine(old(server), b) && (r.Done? || r.NotFound?) ==> Settled(server, b)
      ensures Calm() ==> r == (if b.key !in old(server).objects then NotFound else if Meets(old(server), b.key, b.uid, b.version) then Done else Conflict)
      ensures Calm() && !r.Done? ==> server == old(server)
      ensures Calm() ==> forall c :: Deletable(old(server), c) ==> Deletable(server, c)
    {
      var fault := Enter();
      if fault.Lost? {
        return Failed;
      }
      r := if b.key !in server.objects then NotFound else if Meets(server, b.key, b.uid, b.version) then Done else Conflict;
      if r.Done? {
        Act(Fenced(b.key, b.uid, b.version, atOnce(calls)), b);
      }
      if fault.AppliedThenLost? {
        r := Failed;
      }
    }

    method Act(a: Action, ghost b: Binding)
      requires Valid() && a.Fenced? && a.key == b.key && a.uid == b.uid && a.version == b.version && Meets(server, a.key, a.uid, a.version)
      modifies this`server, this`history, this`own
      ensures Valid() && Onward() && own == old(own) + [a]
      ensures server.objects.Keys <= old(server).objects.Keys
      ensures forall k :: k in old(server).objects && old(server).objects[k].uid != a.uid ==>
                k in server.objects && server.objects[k] == old(server).objects[k]
      ensures Genuine(old(server), b) ==> Settled(server, b)
      ensures forall c :: Deletable(old(server), c) ==> Deletable(server, c)
    {
      assert (history + [a])[..|history|] == history;
      forall c: Binding | Genuine(server, c) ensures Genuine(Step(server, a), c) && (Settled(server, c) ==> Settled(Step(server, a), c)) {
        StepKeepsSettled(server, a, c);
      }
      server, history, own := Step(server, a), history + [a], own + [a];
    }

    /** A read of one object; the outer `None` is an error. */
    method Get(key: Key) returns (o: Option<Option<Object>>)
      requires Valid()
      modifies this`server, this`calls, this`history
      ensures Valid() && Onward()
      ensures o.Some? ==> o.value == if key in server.objects then Some(server.objects[key]) else None
      ensures Calm() ==> o.Some? && server == old(server)
    {
      var fault := Enter();
      if !fault.Delivered? {
        return None;
      }
      o := Some(if key in server.objects then Some(server.objects[key]) else None);
    }

    /**
     Deletes one bound object. Among any writers and any losses it acts on no UID but the bound one, and
     succeeds only when the bound incarnation is gone or terminating; undisturbed it succeeds exactly then.
     */
    method Delete(b: Binding) returns (ok: bool)
      requires Valid()
      modifies this
      ensures Valid() && Onward()
      ensures own == old(own) || exists now :: own == old(own) + [Fenced(b.key, b.uid, b.version, now)]
      ensures ok && Genuine(old(server), b) ==> Settled(server, b)
      ensures ok ==> Complete(b) && Supported(b.key.kind)
      ensures Calm() ==> (ok <==> Deletable(old(server), b))
      ensures Calm() ==> forall c :: Deletable(old(server), c) ==> Deletable(server, c)
    {
      if b.key.namespace == "" || b.key.name == "" || b.uid == "" || b.version == 0 || !Supported(b.key.kind) {
        return false;
      }
      var r := RequestDelete(b);
      if r.Done? || r.NotFound? {
        return true;
      }
      if !r.Conflict? {
        return false;
      }
      var current := Get(b.key);
      if current.None? {
        return false;
      }
      ok := current.value.None? || (current.value.value.uid == b.uid && current.value.value.terminating);
    }

    /** Deletes every runtime and endpoint binding, once the publication is withdrawn. */
    method DeleteRuntime(withdrawn: bool, bindings: seq<Binding>) returns (ok: bool)
      requires Valid()
      modifies this
      ensures Valid() && Onward()
      ensures ok ==> withdrawn && exists b :: b in bindings && OfRuntime(b)
      ensures ok ==> forall b :: b in bindings && OfRuntime(b) && Genuine(old(server), b) ==> Settled(server, b)
      ensures |old(own)| <= |own| && own[..|old(own)|] == old(own)
      ensures forall i :: |old(own)| <= i < |own| ==> OfBinding(own[i], bindings)
      ensures !withdrawn ==> own == old(own)
      ensures Calm() && withdrawn && AllDeletable(old(server), bindings) ==> ok
    {
      if !withdrawn {
        return false;
      }
      var deleted := false;
      for i := 0 to |bindings|
        invariant Valid() && Onward()
        invariant deleted ==> exists b :: b in bindings && OfRuntime(b)
        invariant forall b :: b in bindings[..i] && OfRuntime(b) && Genuine(old(server), b) ==> Settled(server, b)
        invariant |old(own)| <= |own| && own[..|old(own)|] == old(own)
        invariant forall j :: |old(own)| <= j < |own| ==> OfBinding(own[j], bindings)
        invariant !deleted ==> forall b :: b in bindings[..i] ==> !OfRuntime(b)
        invariant Calm() ==> forall c :: Deletable(old(server), c) ==> Deletable(server, c)
      {
        if !Deletes(bindings[i]) {
          continue;
        }
        assert OfRuntime(bindings[i]) && bindings[i] in bindings;
        var done := Delete(bindings[i]);
        if !done {
          return false;
        }
        deleted := true;
      }
      ok := deleted;
    }
  }

  /** The action is a fenced delete of one of the bindings that may be deleted. */
  ghost predicate OfBinding(a: Action, bindings: seq<Binding>) {
    a.Fenced? && exists b :: b in bindings && OfRuntime(b) && a.key == b.key && a.uid == b.uid && a.version == b.version
  }
}
