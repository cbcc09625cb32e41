/** The GlideinSet reconciler (glideinset_controller.go) as a machine that takes one API call or one
    registry operation per step, interleaved with users, other writers and restarts. */
module GlideinSetReconciler {
  import opened Kube
  import opened Names
  import opened GlideinSets
  import opened ManagerRegistry

  type Copy = Held<SetBody>
  type Fate = Fault<SetBody>

  datatype Outcome = Nothing | Failed | Absent | Finalized | Registered(key: Key)

  /** Where a Reconcile is, and what it holds. */
  datatype Pc =
    | Idle(last: Outcome)
    | Marking(key: Key, copy: Copy)       // about to post the finalizer
    | Deciding(key: Key, copy: Copy)      // about to look at the deletion mark
    | Unwatching(key: Key)                // finalizing: the manager watcher
    | Unclienting(key: Key)               // finalizing: the collector client
    | Refreshing(key: Key)                // about to fetch again
    | Releasing(key: Key, copy: Copy)     // about to post without the finalizer
    | Building(key: Key, copy: Copy)      // creating and updating child resources
    | Watching(key: Key, copy: Copy)      // about to add the manager watcher
    | Clienting(key: Key)                 // about to add the collector client

  datatype Sys = Sys(objects: map<Key, Copy>, past: set<(Key, Copy)>, clock: nat,
                     clients: set<string>, watch: View, pc: Pc)

  datatype Action =
    | UserCreate(key: Key, obj: SetObject)
    | UserDelete(key: Key)
    | Foreign(key: Key, obj: SetObject)   // an accepted post by another writer
    | Restart                             // the operator loses its memory
    | Begin(key: Key, fate: Fate)         // a Reconcile starts, with its first fetch
    | Go(fate: Fate, stamp: nat)          // the running Reconcile takes its next step

  const START := Sys(map[], {}, 0, {}, map[], Idle(Nothing))

  // ---------- The server's side of a step ----------

  function Store(s: Sys, k: Key, r: Option<SetObject>): Sys {
    var n := s.clock + 1;
    if r.Some? then
      s.(clock := n, objects := s.objects[k := Held(n, r.value)], past := s.past + {(k, Held(n, r.value))})
    else
      s.(clock := n, objects := s.objects - {k})
  }

  function Get(s: Sys, k: Key, f: Fate): Result<Copy> {
    if f.Refuse? || f.LoseReply? then Err(Unavailable)
    else if f.Stale? && f.seen.None? then Err(NotFound)
    else if f.Stale? && (k, f.seen.value) in s.past then Ok(f.seen.value)
    else if k in s.objects then Ok(s.objects[k])
    else Err(NotFound)
  }

  predicate Takes(s: Sys, k: Key, c: Copy, f: Fate) {
    !f.Refuse? && k in s.objects && s.objects[k].version == c.version && Admissible(s.objects[k].obj, c.obj)
  }

  function Put(s: Sys, k: Key, c: Copy): Sys
    requires k in s.objects
  {
    Store(s, k, AfterPost(s.objects[k].obj, c.obj))
  }

  // ---------- One step ----------

  predicate PlainKey(k: Key) {
    k.kind == KIND && '/' !in k.namespace
  }

  /** The operator's finalizer is left alone. */
  predicate KeepsFinalizer(o: SetObject, o': SetObject) {
    FINALIZER in o.finalizers ==> FINALIZER in o'.finalizers
  }

  ghost predicate Next(s: Sys, a: Action, s': Sys) {
    match a
    case UserCreate(k, o) =>
      s' == if k !in s.objects && !o.deleting && PlainKey(k) then Store(s, k, Some(o)) else s
    case UserDelete(k) =>
      s' == if k in s.objects && !s.objects[k].obj.deleting then Store(s, k, AfterDelete(s.objects[k].obj)) else s
    case Foreign(k, o) =>
      s' == if k in s.objects && Admissible(s.objects[k].obj, o) && KeepsFinalizer(s.objects[k].obj, o)
            then Store(s, k, AfterPost(s.objects[k].obj, o)) else s
    case Restart => s' == s.(clients := {}, watch := map[], pc := Idle(Nothing))
    case Begin(k, f) => s' == if s.pc.Idle? then s.(pc := Begun(s, k, f)) else s
    case Go(f, stamp) => Goes(s, f, stamp, s')
  }

  function Begun(s: Sys, k: Key, f: Fate): Pc {
    match Get(s, k, f)
    case Err(e) => Idle(if e == NotFound then Absent else Failed)
    case Ok(h) =>
      if FINALIZER in h.obj.finalizers then Deciding(k, h)
      else Marking(k, h.(obj := h.obj.(finalizers := h.obj.finalizers + {FINALIZER})))
  }

  ghost predicate Goes(s: Sys, f: Fate, stamp: nat, s': Sys) {
    match s.pc
    case Idle(_) => s' == s
    case Marking(k, c) =>
      if !Takes(s, k, c, f) then s' == s.(pc := Idle(Failed))
      else
        var t := Put(s, k, c);
        s' == t.(pc := if f.LoseReply? || k !in t.objects then Idle(Failed) else Deciding(k, t.objects[k]))
    case Deciding(k, c) =>
      s' == s.(pc := if !c.obj.deleting then Building(k, c)
                     else if FINALIZER !in c.obj.finalizers then Idle(Nothing) else Unwatching(k))
    case Unwatching(k) => Removes(s.watch, s'.watch, Slot(k)) && s' == s.(watch := s'.watch, pc := Unclienting(k))
    case Unclienting(k) => s' == s.(clients := s.clients - {Slot(k)}, pc := Refreshing(k))
    case Refreshing(k) =>
      (match Get(s, k, f)
       case Err(_) => s' == s.(pc := Idle(Failed))
       case Ok(h) => s' == s.(pc := Releasing(k, h.(obj := h.obj.(finalizers := h.obj.finalizers - {FINALIZER})))))
    case Releasing(k, c) =>
      s' == if Takes(s, k, c, f) then Put(s, k, c).(pc := Idle(if f.LoseReply? then Failed else Finalized))
            else s.(pc := Idle(Failed))
    case Building(k, c) => s' == s.(pc := if f.Deliver? then Watching(k, c) else Idle(Failed))
    case Watching(k, c) =>
      if !f.Deliver? then s' == s.(pc := Idle(Failed))
      else
        && Adds(s.watch, s'.watch, c.obj.body.spec.managerUrl, Handler(k, stamp))
        && s' == s.(watch := s'.watch, pc := Clienting(k))
    case Clienting(k) => s' == s.(clients := s.clients + {Slot(k)}, pc := Idle(Registered(k)))
  }

  ghost predicate Steps(run: seq<Sys>, actions: seq<Action>) {
    |run| == |actions| + 1 && forall i :: 0 <= i < |actions| ==> Next(run[i], actions[i], run[i + 1])
  }

  ghost predicate Trace(states: seq<Sys>, actions: seq<Action>) {
    Steps(states, actions) && states[0] == START
  }

  lemma StepsChain(r1: seq<Sys>, a1: seq<Action>, r2: seq<Sys>, a2: seq<Action>)
    requires Steps(r1, a1) && Steps(r2, a2) && r1[|a1|] == r2[0]
    ensures Steps(r1 + r2[1..], a1 + a2) && (r1 + r2[1..])[0] == r1[0] && (r1 + r2[1..])[|a1| + |a2|] == r2[|a2|]
    ensures forall i :: 0 <= i <= |a1| ==> (r1 + r2[1..])[i] == r1[i]
    ensures forall i :: 0 <= i <= |a2| ==> (r1 + r2[1..])[|a1| + i] == r2[i]
  {
    hide Next;
    var run, actions := r1 + r2[1..], a1 + a2;
    forall i | 0 <= i < |actions| ensures Next(run[i], actions[i], run[i + 1]) {
      if i < |a1| {
        assert run[i] == r1[i] && run[i + 1] == r1[i + 1];
      } else {
        assert run[i] == r2[i - |a1|] && run[i + 1] == r2[i + 1 - |a1|];
      }
    }
  }

  /** No fetch is answered with an older state. */
  predicate Fresh(a: Action) {
    (a.Begin? || a.Go?) ==> !a.fate.Stale?
  }

  /** The first fetch of a Reconcile is not misleading: if it shows the finalizer and no deletion,
      the object has the finalizer now. Nothing is asked of any other fetch. */
  predicate Guided(s: Sys, a: Action) {
    a.Begin? && s.pc.Idle? ==> !Misled(s, a.key, Get(s, a.key, a.fate))
  }

  predicate Misled(s: Sys, k: Key, got: Result<Copy>) {
    got.Ok? && FINALIZER in got.value.obj.finalizers && !got.value.obj.deleting && !Marked(s, k)
  }

  ghost predicate AllGuided(run: seq<Sys>, actions: seq<Action>)
    requires |run| == |actions| + 1
  {
    forall i :: 0 <= i < |actions| ==> Guided(run[i], actions[i])
  }

  lemma FreshIsGuided(run: seq<Sys>, actions: seq<Action>)
    requires |run| == |actions| + 1 && forall a :: a in actions ==> Fresh(a)
    ensures AllGuided(run, actions)
  {
    forall i | 0 <= i < |actions| ensures Guided(run[i], actions[i]) {
      assert actions[i] in actions;
    }
  }

  // ---------- No orphans ----------

  predicate Marked(s: Sys, k: Key) {
    k in s.objects && FINALIZER in s.objects[k].obj.finalizers
  }

  /** Some object of that name exists and carries the finalizer. */
  ghost predicate Backed(s: Sys, slot: string) {
    exists k :: Marked(s, k) && Slot(k) == slot
  }

  ghost predicate NoOrphanClients(s: Sys) {
    forall n :: n in s.clients ==> Backed(s, n)
  }

  ghost predicate ServerInv(s: Sys) {
    && (forall k :: k in s.objects ==> PlainKey(k) && WellFormed(s.objects[k].obj))
    && (forall k :: k in s.objects ==> (k, s.objects[k]) in s.past)
    && (forall e :: e in s.past ==> PlainKey(e.0) && e.1.version <= s.clock)
    && (forall e :: e in s.past && e.0 in s.objects && s.objects[e.0].version == e.1.version ==> s.objects[e.0] == e.1)
  }

  /** What a running Reconcile may rely on. */
  ghost predicate PcInv(s: Sys) {
    match s.pc
    case Idle(Registered(k)) => Slot(k) in s.clients && Holders(s.watch, Slot(k)) != {}
    case Idle(_) => true
    case Marking(k, c) => FINALIZER in c.obj.finalizers
    case Deciding(k, c) => FINALIZER in c.obj.finalizers && (!c.obj.deleting ==> Marked(s, k))
    case Refreshing(k) => Slot(k) !in s.clients
    case Releasing(k, c) => Slot(k) !in s.clients
    case Building(k, c) => Marked(s, k)
    case Watching(k, c) => Marked(s, k)
    case Clienting(k) => Marked(s, k) && Holders(s.watch, Slot(k)) != {}
    case _ => true
  }

  ghost predicate Inv(s: Sys) {
    ServerInv(s) && PcInv(s) && NoOrphanClients(s) && NoneEmpty(s.watch)
  }

  lemma StoreKeepsServerInv(s: Sys, k: Key, r: Option<SetObject>)
    requires ServerInv(s) && PlainKey(k) && (r.Some? ==> WellFormed(r.value))
    ensures ServerInv(Store(s, k, r))
  {
  }

  /** As long as the finalizer stays on `k`, nothing anyone relies on is lost. */
  lemma StoreKeepsBacked(s: Sys, k: Key, r: Option<SetObject>)
    requires Marked(s, k) ==> r.Some? && FINALIZER in r.value.finalizers
    ensures forall j :: Marked(s, j) ==> Marked(Store(s, k, r), j)
    ensures forall n :: Backed(s, n) ==> Backed(Store(s, k, r), n)
  {
    assert forall j :: Marked(s, j) ==> Marked(Store(s, k, r), j);
  }

  /** Nothing but the last post of a Reconcile takes the finalizer off, and only off its own object. */
  lemma StepKeepsBacked(s: Sys, a: Action, s': Sys)
    requires Inv(s) && Next(s, a, s')
    ensures forall n :: Backed(s, n) && !(a.Go? && s.pc.Releasing? && n == Slot(s.pc.key)) ==> Backed(s', n)
  {
    if a.UserCreate? && s' != s {
      StoreKeepsBacked(s, a.key, Some(a.obj));
    } else if a.UserDelete? && s' != s {
      StoreKeepsBacked(s, a.key, AfterDelete(s.objects[a.key].obj));
    } else if a.Foreign? && s' != s {
      StoreKeepsBacked(s, a.key, AfterPost(s.objects[a.key].obj, a.obj));
    } else if a.Go? && (s.pc.Marking? || s.pc.Releasing?) {
      PostKeepsBacked(s, a.fate, a.stamp, s');
    } else {
      assert forall j :: Marked(s, j) ==> Marked(s', j);
    }
  }

  lemma PostKeepsBacked(s: Sys, f: Fate, stamp: nat, s': Sys)
    requires Inv(s) && Goes(s, f, stamp, s') && (s.pc.Marking? || s.pc.Releasing?)
    ensures forall n :: Backed(s, n) && !(s.pc.Releasing? && n == Slot(s.pc.key)) ==> Backed(s', n)
  {
    var k, c := s.pc.key, s.pc.copy;
    if !Takes(s, k, c, f) {
      assert forall j :: Marked(s, j) ==> Marked(s', j);
    } else {
      var t := Put(s, k, c);
      assert s'.objects == t.objects;
      forall n | Backed(s, n) && !(s.pc.Releasing? && n == Slot(k)) ensures Backed(s', n) {
        var j :| Marked(s, j) && Slot(j) == n;
        assert Marked(s', j);
      }
    }
  }

  lemma EnvironmentKeepsInv(s: Sys, a: Action, s': Sys)
    requires Inv(s) && Next(s, a, s') && !a.Begin? && !a.Go?
    ensures Inv(s')
  {
    if s' != s && !a.Restart? {
      var o := if a.UserCreate? then Some(a.obj) else if a.UserDelete? then AfterDelete(s.objects[a.key].obj)
               else AfterPost(s.objects[a.key].obj, a.obj);
      assert s' == Store(s, a.key, o);
      StoreKeepsServerInv(s, a.key, o);
      StoreKeepsBacked(s, a.key, o);
    }
  }

  lemma PostKeepsInv(s: Sys, f: Fate, stamp: nat, s': Sys)
    requires Inv(s) && Goes(s, f, stamp, s') && (s.pc.Marking? || s.pc.Releasing?)
    ensures ServerInv(s') && PcInv(s')
  {
    var k, c := s.pc.key, s.pc.copy;
    if Takes(s, k, c, f) {
      StoreKeepsServerInv(s, k, AfterPost(s.objects[k].obj, c.obj));
    }
  }

  lemma RegistryStepKeepsInv(s: Sys, f: Fate, stamp: nat, s': Sys)
    requires Inv(s) && Goes(s, f, stamp, s') && (s.pc.Unwatching? || s.pc.Watching?)
    ensures PcInv(s') && NoneEmpty(s'.watch)
  {
    if s.pc.Unwatching? {
      RemoveCounts(s.watch, s'.watch, Slot(s.pc.key));
    } else if f.Deliver? {
      AddCounts(s.watch, s'.watch, s.pc.copy.obj.body.spec.managerUrl, Handler(s.pc.key, stamp));
      assert s.pc.copy.obj.body.spec.managerUrl in Holders(s'.watch, Slot(s.pc.key));
    }
  }

  lemma PlainStepKeepsInv(s: Sys, f: Fate, stamp: nat, s': Sys)
    requires Inv(s) && Goes(s, f, stamp, s')
    requires !s.pc.Marking? && !s.pc.Releasing? && !s.pc.Unwatching? && !s.pc.Watching?
    ensures PcInv(s') && s'.watch == s.watch && s'.objects == s.objects && s'.past == s.past && s'.clock == s.clock
  {
  }

  /** The post that takes the finalizer off orphans no client: it is out of the registry by then. */
  lemma ClientsStayBacked(s: Sys, a: Action, s': Sys)
    requires Inv(s) && Next(s, a, s')
    ensures NoOrphanClients(s')
  {
    StepKeepsBacked(s, a, s');
    forall n | n in s'.clients ensures Backed(s', n) {
      if n !in s.clients {
        assert Marked(s', s.pc.key) && Slot(s.pc.key) == n;
      }
    }
  }

  lemma StepKeepsInv(s: Sys, a: Action, s': Sys)
    requires Inv(s) && Next(s, a, s') && Guided(s, a)
    ensures Inv(s')
  {
    if !a.Begin? && !a.Go? {
      EnvironmentKeepsInv(s, a, s');
    } else {
      ClientsStayBacked(s, a, s');
      if a.Go? {
        GoKeepsInv(s, a.fate, a.stamp, s');
      }
    }
  }

  lemma GoKeepsInv(s: Sys, f: Fate, stamp: nat, s': Sys)
    requires Inv(s) && Goes(s, f, stamp, s')
    ensures ServerInv(s') && PcInv(s') && NoneEmpty(s'.watch)
  {
    if s.pc.Marking? || s.pc.Releasing? {
      PostKeepsInv(s, f, stamp, s');
    } else if s.pc.Unwatching? || s.pc.Watching? {
      RegistryStepKeepsInv(s, f, stamp, s');
    } else {
      PlainStepKeepsInv(s, f, stamp, s');
    }
  }

  lemma {:induction false} RunKeepsInv(run: seq<Sys>, actions: seq<Action>, i: nat)
    requires Steps(run, actions) && Inv(run[0]) && AllGuided(run, actions) && i < |run|
    ensures Inv(run[i])
  {
    if i > 0 {
      RunKeepsInv(run, actions, i - 1);
      StepKeepsInv(run[i - 1], actions[i - 1], run[i]);
    }
  }

  lemma TraceKeepsInv(states: seq<Sys>, actions: seq<Action>, i: nat)
    requires Trace(states, actions) && AllGuided(states, actions) && i < |states|
    ensures Inv(states[i])
  {
    RunKeepsInv(states, actions, i);
  }

  /** At every moment of every interleaving of Reconciles, any of whose calls may fail, lose their
      reply or read an old state, with users, other writers and restarts: a registered collector
      client has its object, and the object carries the finalizer. And a Reconcile that ended well on
      an object not under deletion has left it in both registries. */
  lemma NoOrphanClientsEver(states: seq<Sys>, actions: seq<Action>, i: nat)
    requires Trace(states, actions) && AllGuided(states, actions) && i < |states|
    ensures NoOrphanClients(states[i])
    ensures states[i].pc.Idle? && states[i].pc.last.Registered? ==>
      Slot(states[i].pc.last.key) in states[i].clients && Holders(states[i].watch, Slot(states[i].pc.last.key)) != {}
  {
    TraceKeepsInv(states, actions, i);
  }

  // ---------- The premise is exact ----------

  /** The action `a` in `s`, and any number of guided steps after it. */
  ghost predicate Follows(s: Sys, a: Action, run: seq<Sys>, actions: seq<Action>) {
    && Steps(run, actions) && run[0] == s
    && 0 < |actions| && actions[0] == a
    && (forall i :: 1 <= i < |actions| ==> Guided(run[i], actions[i]))
  }

  /** A Reconcile's first fetch keeps every continuation free of orphans if and only if it is not
      misleading. */
  lemma GuidedExactly(s: Sys, k: Key, f: Fate)
    requires Inv(s) && s.pc.Idle?
    ensures Guided(s, Begin(k, f)) <==>
      forall run, actions :: Follows(s, Begin(k, f), run, actions) ==> NoOrphanClients(run[|actions|])
  {
    if Guided(s, Begin(k, f)) {
      forall run, actions | Follows(s, Begin(k, f), run, actions) ensures NoOrphanClients(run[|actions|]) {
        RunKeepsInv(run, actions, |actions|);
      }
    } else {
      var run := MisledBeginLeavesOrphan(s, k, f);
      var go := Go(Deliver, 0);
      assert Follows(s, Begin(k, f), run, [Begin(k, f), go, go, go, go]);
    }
  }

  lemma OnlyOneOfTheName(s: Sys, j: Key, k: Key)
    requires ServerInv(s) && Marked(s, j) && PlainKey(k) && Slot(j) == Slot(k)
    ensures j == k
  {
    NamespacedNameInjective(j.namespace, j.name, k.namespace, k.name);
  }

  /** Whatever the registry holds, an add has a result. */
  lemma AddsSomething(v: View, url: string, h: Handler) returns (v': View)
    requires NoneEmpty(v)
    ensures Adds(v, v', url, h)
  {
    var slot := Slot(h.resource);
    if url !in v {
      v' := v[url := map[slot := h]];
    } else if slot in v[url] {
      v' := v;
    } else {
      var mid := RemovesSomething(v, slot);
      FoundPollerSurvives(v, mid, url, slot);
      v' := mid[url := mid[url][slot := h]];
    }
  }

  lemma RemovesSomething(v: View, slot: string) returns (v': View)
    ensures Removes(v, v', slot)
  {
    v' := v;
    if u :| u in Holders(v, slot) {
      v' := Dropped(v, u, slot);
    }
  }

  /** If a cache still shows a GlideinSet as it was, but it is gone or has lost its finalizer, a
      Reconcile registers a collector client that has no object to release it. */
  lemma MisledBeginLeavesOrphan(s: Sys, k: Key, f: Fate) returns (run: seq<Sys>)
    requires Inv(s) && s.pc.Idle? && !Guided(s, Begin(k, f))
    ensures Steps(run, [Begin(k, f), Go(Deliver, 0), Go(Deliver, 0), Go(Deliver, 0), Go(Deliver, 0)])
    ensures run[0] == s && (forall i :: 1 <= i < 5 ==> !run[i].pc.Idle?) && !NoOrphanClients(run[5])
  {
    hide Next, NoOrphanClients, Slot, Adds;
    var c := Get(s, k, f).value;
    var watch := AddsSomething(s.watch, c.obj.body.spec.managerUrl, Handler(k, 0));
    var begun := MisledBeginGoesOn(s, k, f);
    run := begun + [s.(watch := watch, pc := Clienting(k)),
                    s.(watch := watch, clients := s.clients + {Slot(k)}, pc := Idle(Registered(k)))];
    RegistersAnyway(s, k, c, watch);
    UnmarkedIsUnbacked(s, run[5], k);
    assert Slot(k) in run[5].clients;
    UnbackedIsOrphan(run[5], Slot(k));
  }

  /** A misleading first fetch takes the Reconcile as far as its watcher. */
  lemma MisledBeginGoesOn(s: Sys, k: Key, f: Fate) returns (run: seq<Sys>)
    requires s.pc.Idle? && !Guided(s, Begin(k, f))
    ensures var c := Get(s, k, f).value;
      run == [s, s.(pc := Deciding(k, c)), s.(pc := Building(k, c)), s.(pc := Watching(k, c))]
    ensures Steps(run, [Begin(k, f), Go(Deliver, 0), Go(Deliver, 0)])
  {
    var c := Get(s, k, f).value;
    run := [s, s.(pc := Deciding(k, c)), s.(pc := Building(k, c)), s.(pc := Watching(k, c))];
  }

  /** And from there into both registries. */
  lemma RegistersAnyway(s: Sys, k: Key, c: Copy, watch: View)
    requires Adds(s.watch, watch, c.obj.body.spec.managerUrl, Handler(k, 0))
    ensures var s3, s4 := s.(pc := Watching(k, c)), s.(watch := watch, pc := Clienting(k));
      && Next(s3, Go(Deliver, 0), s4)
      && Next(s4, Go(Deliver, 0), s.(watch := watch, clients := s.clients + {Slot(k)}, pc := Idle(Registered(k))))
  {
  }

  lemma UnbackedIsOrphan(s: Sys, slot: string)
    requires slot in s.clients && !Backed(s, slot)
    ensures !NoOrphanClients(s)
  {
  }

  lemma UnmarkedIsUnbacked(s: Sys, s': Sys, k: Key)
    requires ServerInv(s) && PlainKey(k) && !Marked(s, k) && s'.objects == s.objects
    ensures !Backed(s', Slot(k))
  {
    forall j | Marked(s', j) && Slot(j) == Slot(k) ensures false {
      assert Marked(s, j);
      OnlyOneOfTheName(s, j, k);
    }
  }

  /** A GlideinSet is deleted, and its Reconcile is served in all its calls. */
  function Deletion(k: Key): seq<Action> {
    [UserDelete(k), Begin(k, Deliver), Go(Deliver, 0), Go(Deliver, 0), Go(Deliver, 0), Go(Deliver, 0), Go(Deliver, 0)]
  }

  lemma DeletionIsGuided(run: seq<Sys>, k: Key)
    requires |run| == 8
    ensures AllGuided(run, Deletion(k))
  {
    FreshIsGuided(run, Deletion(k));
  }

  /** From the fetch to the moment the copy without the finalizer is ready to be posted. */
  lemma FinalizerRuns(s: Sys, k: Key) returns (run: seq<Sys>)
    requires Inv(s) && s.pc.Idle? && Marked(s, k) && s.objects[k].obj.deleting
    ensures Steps(run, Deletion(k)[1..6]) && run[0] == s && forall i :: 0 <= i < 6 ==> !run[i].pc.Watching?
    ensures var h := s.objects[k];
      run[5] == s.(clients := s.clients - {Slot(k)}, watch := run[5].watch,
                   pc := Releasing(k, h.(obj := h.obj.(finalizers := h.obj.finalizers - {FINALIZER}))))
    ensures Removes(s.watch, run[5].watch, Slot(k))
  {
    var h := s.objects[k];
    var watch := RemovesSomething(s.watch, Slot(k));
    var s1 := s.(pc := Deciding(k, h));
    var s2 := s.(pc := Unwatching(k));
    var s3 := s.(watch := watch, pc := Unclienting(k));
    var s4 := s3.(clients := s.clients - {Slot(k)}, pc := Refreshing(k));
    var s5 := s4.(pc := Releasing(k, h.(obj := h.obj.(finalizers := h.obj.finalizers - {FINALIZER}))));
    run := [s, s1, s2, s3, s4, s5];
    assert Deletion(k)[1..6] == [Begin(k, Deliver), Go(Deliver, 0), Go(Deliver, 0), Go(Deliver, 0), Go(Deliver, 0)];
  }

  /** The finalizer comes off `k`, and nothing else changes. */
  lemma PostTakesItOff(s: Sys, k: Key) returns (s': Sys)
    requires Inv(s) && k in s.objects && s.objects[k].obj.deleting
    requires var h := s.objects[k];
      s.pc == Releasing(k, h.(obj := h.obj.(finalizers := h.obj.finalizers - {FINALIZER})))
    ensures Next(s, Go(Deliver, 0), s') && s'.pc == Idle(Finalized) && s.past <= s'.past && s'.watch == s.watch
    ensures !Marked(s', k) && forall j :: j != k ==> (Marked(s', j) <==> Marked(s, j))
  {
    s' := Put(s, k, s.pc.copy).(pc := Idle(Finalized));
  }

  lemma MarkForDeletion(s: Sys, k: Key) returns (s': Sys)
    requires Inv(s) && Marked(s, k)
    ensures Next(s, UserDelete(k), s') && Inv(s') && s'.pc == s.pc && s.past <= s'.past && s'.watch == s.watch
    ensures Marked(s', k) && s'.objects[k].obj.deleting && forall j :: j != k ==> (Marked(s', j) <==> Marked(s, j))
  {
    s' := if s.objects[k].obj.deleting then s else Store(s, k, AfterDelete(s.objects[k].obj));
    EnvironmentKeepsInv(s, UserDelete(k), s');
  }

  /** Such a deletion goes through: in the end the object is gone, or has lost the finalizer. */
  lemma DeletionGoesThrough(s: Sys, k: Key) returns (run: seq<Sys>)
    requires Inv(s) && s.pc.Idle? && Marked(s, k)
    ensures Steps(run, Deletion(k)) && AllGuided(run, Deletion(k)) && run[0] == s
    ensures Inv(run[7]) && run[7].pc == Idle(Finalized) && s.past <= run[7].past
    ensures forall i :: 0 <= i < 7 ==> !run[i].pc.Watching?
    ensures !Marked(run[7], k) && forall j :: j != k ==> (Marked(run[7], j) <==> Marked(s, j))
    ensures Removes(s.watch, run[7].watch, Slot(k))
  {
    hide Inv, Next, Slot, Removes;
    var s1 := MarkForDeletion(s, k);
    var middle := FinalizerRuns(s1, k);
    FreshIsGuided(middle, Deletion(k)[1..6]);
    RunKeepsInv(middle, Deletion(k)[1..6], 5);
    var s7 := PostTakesItOff(middle[5], k);
    assert Steps([s, s1], [UserDelete(k)]) && Steps([middle[5], s7], [Go(Deliver, 0)]);
    StepsChain([s, s1], [UserDelete(k)], middle, Deletion(k)[1..6]);
    StepsChain([s, s1] + middle[1..], [UserDelete(k)] + Deletion(k)[1..6], [middle[5], s7], [Go(Deliver, 0)]);
    run := [s, s1] + middle[1..] + [middle[5], s7][1..];
    assert [UserDelete(k)] + Deletion(k)[1..6] + [Go(Deliver, 0)] == Deletion(k);
    DeletionIsGuided(run, k);
    RunKeepsInv(run, Deletion(k), 7);
  }

  lemma FirstCreation(k: Key, o: SetObject)
    requires PlainKey(k) && !o.deleting && FINALIZER in o.finalizers
    ensures var s := Store(START, k, Some(o));
      && Next(START, UserCreate(k, o), s) && Inv(s) && s.pc.Idle?
      && Marked(s, k) && (k, Held(1, o)) in s.past
  {
    StepKeepsInv(START, UserCreate(k, o), Store(START, k, Some(o)));
  }

  /** And a misleading fetch can come about: a GlideinSet is created and deleted again, and a cache
      still shows it. */
  lemma MisledBeginIsReachable(k: Key, o: SetObject) returns (states: seq<Sys>, actions: seq<Action>)
    requires PlainKey(k) && !o.deleting && o.finalizers == {FINALIZER}
    ensures Trace(states, actions) && AllGuided(states, actions)
    ensures states[|actions|].pc.Idle? && !Guided(states[|actions|], Begin(k, Stale(Some(Held(1, o)))))
  {
    hide Inv, Next, Slot, Store, Removes;
    var s1 := Store(START, k, Some(o));
    FirstCreation(k, o);
    var run := DeletionGoesThrough(s1, k);
    StepsChain([START, s1], [UserCreate(k, o)], run, Deletion(k));
    states, actions := [START, s1] + run[1..], [UserCreate(k, o)] + Deletion(k);
    forall i | 0 <= i < |actions| ensures Guided(states[i], actions[i]) {
      if i > 0 {
        assert states[i] == run[i - 1] && actions[i] == Deletion(k)[i - 1];
      }
    }
  }

  // ---------- No orphaned watchers, as long as none is stranded ----------

  ghost predicate NoOrphanWatchers(s: Sys) {
    forall u, n :: Has(s.watch, u, n) ==> Backed(s, n)
  }

  ghost predicate Single(s: Sys) {
    forall n :: |Holders(s.watch, n)| <= 1
  }

  /** The step that adds a manager watcher, for a resource that is watched elsewhere, at a URL that
      nobody is watched at: the branch that leaves the old watcher where it is. */
  predicate Strands(s: Sys, a: Action) {
    && a.Go? && a.fate.Deliver? && s.pc.Watching?
    && s.pc.copy.obj.body.spec.managerUrl !in s.watch
    && Holders(s.watch, Slot(s.pc.key)) != {}
  }

  ghost predicate NoneStrands(run: seq<Sys>, actions: seq<Action>)
    requires |run| == |actions| + 1
  {
    forall i :: 0 <= i < |actions| ==> !Strands(run[i], actions[i])
  }

  ghost predicate SingleInv(s: Sys) {
    && NoOrphanWatchers(s) && Single(s)
    && (s.pc.Unclienting? || s.pc.Refreshing? || s.pc.Releasing? ==> Holders(s.watch, Slot(s.pc.key)) == {})
  }

  lemma HasHolder(v: View, slot: string)
    ensures Holders(v, slot) == {} <==> forall u :: !Has(v, u, slot)
  {
    assert forall u :: u in Holders(v, slot) <==> Has(v, u, slot);
  }

  lemma RemovingKeepsSingle(s: Sys, s': Sys, f: Fate, stamp: nat)
    requires Inv(s) && SingleInv(s) && s.pc.Unwatching? && Goes(s, f, stamp, s')
    ensures Single(s') && Holders(s'.watch, Slot(s.pc.key)) == {}
    ensures forall u, n :: Has(s'.watch, u, n) ==> Has(s.watch, u, n)
  {
    var slot := Slot(s.pc.key);
    RemoveCounts(s.watch, s'.watch, slot);
    assert |Holders(s.watch, slot)| <= 1;
    forall n ensures |Holders(s'.watch, n)| <= 1 {
      assert |Holders(s.watch, n)| <= 1;
    }
  }

  lemma AddingKeepsSingle(s: Sys, s': Sys, f: Fate, stamp: nat)
    requires Inv(s) && SingleInv(s) && s.pc.Watching? && Goes(s, f, stamp, s') && !Strands(s, Go(f, stamp))
    ensures Single(s')
    ensures forall u, n :: Has(s'.watch, u, n) ==> Has(s.watch, u, n) || n == Slot(s.pc.key)
  {
    if f.Deliver? {
      var url, slot := s.pc.copy.obj.body.spec.managerUrl, Slot(s.pc.key);
      AddCounts(s.watch, s'.watch, url, Handler(s.pc.key, stamp));
      forall n ensures |Holders(s'.watch, n)| <= 1 {
        assert |Holders(s.watch, n)| <= 1;
      }
      forall u, n | Has(s'.watch, u, n) && n != slot ensures Has(s.watch, u, n) {
        assert u in Holders(s'.watch, n);
      }
    }
  }

  lemma MarkedIsBacked(s: Sys, k: Key)
    requires Marked(s, k)
    ensures Backed(s, Slot(k))
  {
  }

  lemma StepKeepsSingle(s: Sys, a: Action, s': Sys)
    requires Inv(s) && SingleInv(s) && Next(s, a, s') && !Strands(s, a)
    ensures SingleInv(s')
  {
    hide Backed, Slot, PlainKey, ServerInv, NoneEmpty, NoOrphanClients;
    StepKeepsBacked(s, a, s');
    if a.Go? && s.pc.Unwatching? {
      RemovingKeepsSingle(s, s', a.fate, a.stamp);
    } else if a.Go? && s.pc.Watching? {
      AddingKeepsSingle(s, s', a.fate, a.stamp);
      MarkedIsBacked(s', s.pc.key);
    } else if a.Go? && s.pc.Releasing? {
      HasHolder(s.watch, Slot(s.pc.key));
    }
  }

  lemma {:induction false} RunKeepsSingle(run: seq<Sys>, actions: seq<Action>, i: nat)
    requires Steps(run, actions) && Inv(run[0]) && SingleInv(run[0])
    requires AllGuided(run, actions) && NoneStrands(run, actions) && i < |run|
    ensures SingleInv(run[i])
  {
    if i > 0 {
      RunKeepsSingle(run, actions, i - 1);
      RunKeepsInv(run, actions, i - 1);
      StepKeepsSingle(run[i - 1], actions[i - 1], run[i]);
    }
  }

  /** On every run on which no watcher is stranded, a manager watcher has its object, carrying the
      finalizer, and nobody is watched at two URLs; managers may change, to a polled URL at any time
      and to any URL while the resource is not watched. */
  lemma NoOrphanWatchersEver(states: seq<Sys>, actions: seq<Action>, i: nat)
    requires Trace(states, actions) && AllGuided(states, actions) && NoneStrands(states, actions) && i < |states|
    ensures NoOrphanWatchers(states[i]) && Single(states[i])
  {
    RunKeepsSingle(states, actions, i);
  }

  /** Each resource keeps to one registration throughout a run if and only if no step strands one. */
  lemma SingleExactly(states: seq<Sys>, actions: seq<Action>)
    requires Trace(states, actions) && AllGuided(states, actions)
    ensures (forall i :: 0 <= i < |states| ==> Single(states[i])) <==> NoneStrands(states, actions)
  {
    if NoneStrands(states, actions) {
      forall i | 0 <= i < |states| ensures Single(states[i]) {
        NoOrphanWatchersEver(states, actions, i);
      }
    } else {
      var i :| 0 <= i < |actions| && Strands(states[i], actions[i]);
      TraceKeepsInv(states, actions, i);
      assert Next(states[i], actions[i], states[i + 1]);
      StrandingDoubles(states[i], actions[i], states[i + 1]);
    }
  }

  lemma StrandingDoubles(s: Sys, a: Action, s': Sys)
    requires Inv(s) && Next(s, a, s') && Strands(s, a)
    ensures |Holders(s'.watch, Slot(s.pc.key))| >= 2
  {
    AddCounts(s.watch, s'.watch, s.pc.copy.obj.body.spec.managerUrl, Handler(s.pc.key, a.stamp));
    assert |Holders(s.watch, Slot(s.pc.key))| >= 1;
  }

  /** A Reconcile of an object in good order comes as far as its watcher. */
  lemma ReachesWatching(s: Sys, k: Key) returns (run: seq<Sys>)
    requires s.pc.Idle? && Marked(s, k) && !s.objects[k].obj.deleting
    ensures Steps(run, [Begin(k, Deliver), Go(Deliver, 0), Go(Deliver, 0)])
    ensures run[0] == s && run[3] == s.(pc := Watching(k, s.objects[k]))
  {
    run := [s, s.(pc := Deciding(k, s.objects[k])), s.(pc := Building(k, s.objects[k])),
            s.(pc := Watching(k, s.objects[k]))];
  }

  /** A stranding step can come about: a GlideinSet is created and reconciled, gets another manager
      that nobody is watched at, and is reconciled again. */
  lemma StrandingIsReachable(k: Key, o: SetObject, url: string) returns (states: seq<Sys>, actions: seq<Action>)
    requires PlainKey(k) && !o.deleting && o.finalizers == {FINALIZER} && o.body.spec.managerUrl != url
    ensures Trace(states, actions) && AllGuided(states, actions) && Strands(states[|actions|], Go(Deliver, 0))
  {
    hide Slot;
    var go, moved := Go(Deliver, 0), WithSpec(o, o.body.spec.(managerUrl := url));
    var reconcile, finish := [Begin(k, Deliver), go, go], [go, go, Foreign(k, moved)];
    var s1 := Store(START, k, Some(o));
    var r1 := ReachesWatching(s1, k);
    var s5 := s1.(watch := map[o.body.spec.managerUrl := map[Slot(k) := Handler(k, 0)]], pc := Clienting(k));
    var s6 := s5.(clients := {Slot(k)}, pc := Idle(Registered(k)));
    var s7 := Store(s6, k, Some(moved));
    assert Steps([START, s1], [UserCreate(k, o)]);
    StepsChain([START, s1], [UserCreate(k, o)], r1, reconcile);
    var r2 := ReachesWatching(s7, k);
    assert o.body.spec.managerUrl in Holders(s7.watch, Slot(k));
    assert Steps([r1[3], s5, s6, s7], finish);
    StepsChain([r1[3], s5, s6, s7], finish, r2, reconcile);
    states := [START, s1] + r1[1..];
    actions := [UserCreate(k, o)] + reconcile;
    StepsChain(states, actions, [r1[3], s5, s6, s7] + r2[1..], finish + reconcile);
    states := states + ([r1[3], s5, s6, s7] + r2[1..])[1..];
    actions := actions + (finish + reconcile);
    FreshIsGuided(states, actions);
  }

  /** The step `a` in `s`, and any number of guided steps after it that strand nobody. */
  ghost predicate FollowsSoundly(s: Sys, a: Action, run: seq<Sys>, actions: seq<Action>) {
    Follows(s, a, run, actions) && forall i :: 1 <= i < |actions| ==> !Strands(run[i], actions[i])
  }

  /** The step that adds a watcher keeps every continuation free of orphaned watchers if and only if
      it strands nobody. */
  lemma StrandingExactly(s: Sys, stamp: nat)
    requires Inv(s) && SingleInv(s) && s.pc.Watching?
    ensures !Strands(s, Go(Deliver, stamp)) <==>
      forall run, actions :: FollowsSoundly(s, Go(Deliver, stamp), run, actions) ==> NoOrphanWatchers(run[|actions|])
  {
    var a := Go(Deliver, stamp);
    if !Strands(s, a) {
      forall run, actions | FollowsSoundly(s, a, run, actions) ensures NoOrphanWatchers(run[|actions|]) {
        RunKeepsSingle(run, actions, |actions|);
      }
    } else {
      var run, actions := StrandedIsLeftBehind(s, stamp);
    }
  }

  /** After a stranding step, the deletion of the GlideinSet leaves a watcher without an object. */
  lemma StrandedIsLeftBehind(s: Sys, stamp: nat) returns (run: seq<Sys>, actions: seq<Action>)
    requires Inv(s) && Strands(s, Go(Deliver, stamp))
    ensures FollowsSoundly(s, Go(Deliver, stamp), run, actions) && !NoOrphanWatchers(run[|actions|])
  {
    hide Inv, Next, Slot, Removes, Holders, NoOrphanWatchers;
    var k, add := s.pc.key, [Go(Deliver, stamp), Go(Deliver, 0)];
    var first := StrandingRegisters(s, stamp);
    var rest := DeletionGoesThrough(first[2], k);
    StepsChain(first, add, rest, Deletion(k));
    run, actions := first + rest[1..], add + Deletion(k);
    forall i | 1 <= i < |actions| ensures Guided(run[i], actions[i]) && !Strands(run[i], actions[i]) {
      if i >= 2 {
        assert run[i] == rest[i - 2] && actions[i] == Deletion(k)[i - 2];
      }
    }
    WatcherOutlives(first[2], rest[7], k);
  }

  /** The stranding Reconcile runs to its end. */
  lemma StrandingRegisters(s: Sys, stamp: nat) returns (run: seq<Sys>)
    requires Inv(s) && Strands(s, Go(Deliver, stamp))
    ensures Steps(run, [Go(Deliver, stamp), Go(Deliver, 0)]) && run[0] == s
    ensures run[1].pc.Clienting? && run[2].pc.Idle? && Inv(run[2]) && Marked(run[2], s.pc.key)
    ensures |Holders(run[2].watch, Slot(s.pc.key))| >= 2
  {
    var k, a := s.pc.key, Go(Deliver, stamp);
    var watch := AddsSomething(s.watch, s.pc.copy.obj.body.spec.managerUrl, Handler(k, stamp));
    var s1 := s.(watch := watch, pc := Clienting(k));
    var s2 := s1.(clients := s.clients + {Slot(k)}, pc := Idle(Registered(k)));
    run := [s, s1, s2];
    assert Next(s, a, s1) && Next(s1, Go(Deliver, 0), s2);
    StepKeepsInv(s, a, s1);
    StepKeepsInv(s1, Go(Deliver, 0), s2);
    StrandingDoubles(s, a, s1);
  }

  lemma WatcherOutlives(s: Sys, s': Sys, k: Key)
    requires Inv(s) && Inv(s') && Marked(s, k) && |Holders(s.watch, Slot(k))| >= 2
    requires Removes(s.watch, s'.watch, Slot(k)) && !Marked(s', k)
    ensures !NoOrphanWatchers(s')
  {
    RemoveCounts(s.watch, s'.watch, Slot(k));
    var u :| u in Holders(s'.watch, Slot(k));
    assert Has(s'.watch, u, Slot(k));
    forall j | Marked(s', j) && Slot(j) == Slot(k) ensures false {
      OnlyOneOfTheName(s', j, k);
    }
  }

  // ---------- Watchers are at their objects' URLs, as long as those stay put ----------

  function UrlOf(s: Sys, k: Key): string
    requires k in s.objects
  {
    s.objects[k].obj.body.spec.managerUrl
  }

  /** Other writers leave the manager URL of an existing GlideinSet as it is. */
  predicate KeepsUrl(s: Sys, a: Action) {
    a.Foreign? && a.key in s.objects ==> a.obj.body.spec.managerUrl == UrlOf(s, a.key)
  }

  /** The object behind a registration: it carries the finalizer and names the URL. */
  ghost predicate BackedAt(s: Sys, url: string, slot: string) {
    exists k :: Marked(s, k) && Slot(k) == slot && UrlOf(s, k) == url
  }

  ghost predicate AtHome(s: Sys) {
    forall u, n :: Has(s.watch, u, n) ==> BackedAt(s, u, n)
  }

  ghost predicate WatchPcInv(s: Sys) {
    match s.pc
    case Refreshing(k) => Holders(s.watch, Slot(k)) == {}
    case Releasing(k, c) => Holders(s.watch, Slot(k)) == {}
    case Unclienting(k) => Holders(s.watch, Slot(k)) == {}
    case Marking(k, c) =>
      && c.version <= s.clock
      && (k in s.objects && s.objects[k].version == c.version ==> UrlOf(s, k) == c.obj.body.spec.managerUrl)
    case Deciding(k, c) => !c.obj.deleting ==> k in s.objects && UrlOf(s, k) == c.obj.body.spec.managerUrl
    case Building(k, c) => k in s.objects && UrlOf(s, k) == c.obj.body.spec.managerUrl
    case Watching(k, c) => k in s.objects && UrlOf(s, k) == c.obj.body.spec.managerUrl
    case _ => true
  }

  ghost predicate WatchInv(s: Sys) {
    AtHome(s) && WatchPcInv(s)
  }

  /** With one object per name, all registrations of a name are at that object's URL. */
  lemma HoldersAreHome(s: Sys, k: Key)
    requires ServerInv(s) && AtHome(s) && Marked(s, k)
    ensures Holders(s.watch, Slot(k)) <= {UrlOf(s, k)}
  {
    forall u | u in Holders(s.watch, Slot(k)) ensures u == UrlOf(s, k) {
      assert Has(s.watch, u, Slot(k));
      var j :| Marked(s, j) && Slot(j) == Slot(k) && UrlOf(s, j) == u;
      NamespacedNameInjective(j.namespace, j.name, k.namespace, k.name);
    }
  }

  lemma AddAtHome(v: View, v': View, url: string, h: Handler)
    requires NoneEmpty(v) && Adds(v, v', url, h) && Holders(v, Slot(h.resource)) <= {url}
    ensures forall u, n :: Has(v', u, n) <==> Has(v, u, n) || (u, n) == (url, Slot(h.resource))
  {
  }

  /** A store write that keeps the finalizer and the URL of what it replaces. */
  lemma StoreKeepsBackedAt(s: Sys, k: Key, r: Option<SetObject>)
    requires Marked(s, k) ==> r.Some? && FINALIZER in r.value.finalizers && r.value.body.spec.managerUrl == UrlOf(s, k)
    ensures AtHome(s) ==> AtHome(Store(s, k, r))
  {
  }

  lemma EnvironmentKeepsWatchInv(s: Sys, a: Action, s': Sys)
    requires Inv(s) && WatchInv(s) && Next(s, a, s') && KeepsUrl(s, a) && !a.Begin? && !a.Go?
    ensures WatchInv(s')
  {
    if s' != s && !a.Restart? {
      OthersKeepWatchInv(s, a, s');
    }
  }

  lemma OthersKeepWatchInv(s: Sys, a: Action, s': Sys)
    requires Inv(s) && WatchInv(s) && Next(s, a, s') && KeepsUrl(s, a) && s' != s
    requires a.UserCreate? || a.UserDelete? || a.Foreign?
    ensures WatchInv(s')
  {
    hide AtHome, NoOrphanClients, NoneEmpty, Holders, Slot;
    var o := if a.UserCreate? then Some(a.obj) else if a.UserDelete? then AfterDelete(s.objects[a.key].obj)
             else AfterPost(s.objects[a.key].obj, a.obj);
    assert s' == Store(s, a.key, o);
    StoreKeepsWatchInv(s, a.key, o);
  }

  lemma StoreKeepsWatchInv(s: Sys, k: Key, r: Option<SetObject>)
    requires WatchInv(s) && WatchPcInv(Store(s, k, r))
    requires Marked(s, k) ==> r.Some? && FINALIZER in r.value.finalizers && r.value.body.spec.managerUrl == UrlOf(s, k)
    ensures WatchInv(Store(s, k, r))
  {
  }

  lemma BeginKeepsWatchInv(s: Sys, a: Action, s': Sys)
    requires Inv(s) && WatchInv(s) && Next(s, a, s') && a.Begin? && Fresh(a)
    ensures WatchInv(s')
  {
  }

  lemma WatchingKeepsWatchInv(s: Sys, f: Fate, stamp: nat, s': Sys)
    requires Inv(s) && WatchInv(s) && s.pc.Watching? && Goes(s, f, stamp, s')
    ensures WatchInv(s')
  {
    var k, c := s.pc.key, s.pc.copy;
    HoldersAreHome(s, k);
    if f.Deliver? {
      AddAtHome(s.watch, s'.watch, UrlOf(s, k), Handler(k, stamp));
    }
    forall u, n | Has(s'.watch, u, n) ensures BackedAt(s', u, n) {
      if Has(s.watch, u, n) {
        var j :| Marked(s, j) && Slot(j) == n && UrlOf(s, j) == u;
        assert Marked(s', j) && UrlOf(s', j) == u;
      } else {
        assert Marked(s', k) && UrlOf(s', k) == u;
      }
    }
  }

  lemma ReleasingKeepsWatchInv(s: Sys, f: Fate, stamp: nat, s': Sys)
    requires Inv(s) && WatchInv(s) && s.pc.Releasing? && Goes(s, f, stamp, s')
    ensures WatchInv(s')
  {
    var k := s.pc.key;
    forall u, n | Has(s'.watch, u, n) ensures BackedAt(s', u, n) {
      var j :| Marked(s, j) && Slot(j) == n && UrlOf(s, j) == u;
      assert u in Holders(s.watch, n);
      assert j != k && Marked(s', j) && UrlOf(s', j) == u;
    }
  }

  lemma MarkingKeepsWatchInv(s: Sys, f: Fate, stamp: nat, s': Sys)
    requires Inv(s) && WatchInv(s) && s.pc.Marking? && Goes(s, f, stamp, s')
    ensures WatchInv(s')
  {
    var k, c := s.pc.key, s.pc.copy;
    if Takes(s, k, c, f) {
      StoreKeepsBackedAt(s, k, AfterPost(s.objects[k].obj, c.obj));
    }
  }

  lemma UnwatchingKeepsWatchInv(s: Sys, f: Fate, stamp: nat, s': Sys)
    requires Inv(s) && WatchInv(s) && s.pc.Unwatching? && Goes(s, f, stamp, s')
    ensures WatchInv(s')
  {
    AtMostOneHome(s, Slot(s.pc.key));
    RemoveCounts(s.watch, s'.watch, Slot(s.pc.key));
    FewerStayAtHome(s, s');
  }

  /** Nobody new is watched, and no object changes. */
  lemma FewerStayAtHome(s: Sys, s': Sys)
    requires AtHome(s) && s'.objects == s.objects && forall u, n :: Has(s'.watch, u, n) ==> Has(s.watch, u, n)
    ensures AtHome(s')
  {
    forall u, n | Has(s'.watch, u, n) ensures BackedAt(s', u, n) {
      var j :| Marked(s, j) && Slot(j) == n && UrlOf(s, j) == u;
      assert Marked(s', j) && UrlOf(s', j) == u;
    }
  }

  lemma PlainStepKeepsWatchInv(s: Sys, f: Fate, stamp: nat, s': Sys)
    requires Inv(s) && WatchInv(s) && Goes(s, f, stamp, s') && !f.Stale?
    requires !s.pc.Watching? && !s.pc.Releasing? && !s.pc.Marking? && !s.pc.Unwatching?
    ensures WatchInv(s')
  {
    hide AtHome, Slot, Inv;
    FewerStayAtHome(s, s');
  }

  lemma StepKeepsWatchInv(s: Sys, a: Action, s': Sys)
    requires Inv(s) && WatchInv(s) && Next(s, a, s') && Fresh(a) && KeepsUrl(s, a)
    ensures WatchInv(s')
  {
    if a.Begin? {
      BeginKeepsWatchInv(s, a, s');
    } else if !a.Go? {
      EnvironmentKeepsWatchInv(s, a, s');
    } else if s.pc.Watching? {
      WatchingKeepsWatchInv(s, a.fate, a.stamp, s');
    } else if s.pc.Releasing? {
      ReleasingKeepsWatchInv(s, a.fate, a.stamp, s');
    } else if s.pc.Marking? {
      MarkingKeepsWatchInv(s, a.fate, a.stamp, s');
    } else if s.pc.Unwatching? {
      UnwatchingKeepsWatchInv(s, a.fate, a.stamp, s');
    } else {
      PlainStepKeepsWatchInv(s, a.fate, a.stamp, s');
    }
  }

  /** On runs where no GlideinSet changes its manager URL while it exists, every manager watcher has
      its object too, at that object's URL, and no name is registered twice. */
  lemma {:induction false} WatchersAreAtHome(states: seq<Sys>, actions: seq<Action>, i: nat)
    requires Trace(states, actions) && (forall a :: a in actions ==> Fresh(a)) && i < |states|
    requires forall j :: 0 <= j < |actions| ==> KeepsUrl(states[j], actions[j])
    ensures WatchInv(states[i])
    ensures forall n :: |Holders(states[i].watch, n)| <= 1
  {
    if i > 0 {
      WatchersAreAtHome(states, actions, i - 1);
      FreshIsGuided(states, actions);
      TraceKeepsInv(states, actions, i - 1);
      StepKeepsWatchInv(states[i - 1], actions[i - 1], states[i]);
    }
    FreshIsGuided(states, actions);
    TraceKeepsInv(states, actions, i);
    forall n ensures |Holders(states[i].watch, n)| <= 1 {
      AtMostOneHome(states[i], n);
    }
  }

  lemma AtMostOneHome(s: Sys, n: string)
    requires ServerInv(s) && AtHome(s)
    ensures |Holders(s.watch, n)| <= 1
  {
    if Holders(s.watch, n) != {} {
      var u :| u in Holders(s.watch, n);
      assert Has(s.watch, u, n);
      var k :| Marked(s, k) && Slot(k) == n;
      HoldersAreHome(s, k);
      assert Holders(s.watch, n) == {u};
    }
  }
}
