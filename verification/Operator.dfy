/** The GlideinSet reconciler as code over the API server and the two registries in memory
    (glideinset_controller.go), and its refinement of the step machine. */
module Operator {
  import opened Kube
  import opened GlideinSets
  import opened ManagerRegistry
  import opened CollectorClients
  import opened GlideinSetReconciler

  // ---------- The server as the machine sees it ----------

  function Copies(s: Shot<SetBody>): map<Key, Copy> {
    map k | k in s.objects && k in s.versions :: Held(s.versions[k], s.objects[k])
  }

  /** The server's part of a machine state, next to the rest of it. */
  function Serving(s: Shot<SetBody>, clock: nat, rest: Sys): Sys {
    rest.(objects := Copies(s), past := s.past, clock := clock)
  }

  lemma CopiesOfNothing(s: Shot<SetBody>)
    requires s.objects == map[]
    ensures Copies(s) == map[]
  {
  }

  lemma LookAgrees(s: Shot<SetBody>, clock: nat, rest: Sys, k: Key, f: Fate)
    requires Sane(s)
    ensures Look(s, k, f) == Get(Serving(s, clock, rest), k, f)
  {
  }

  lemma RefusalAgrees(s: Shot<SetBody>, clock: nat, rest: Sys, k: Key, c: Copy, f: Fate)
    requires Sane(s)
    ensures Takes(Serving(s, clock, rest), k, c, f) <==> !f.Refuse? && Refusal(s, k, c).None?
    ensures Takes(Serving(s, clock, rest), k, c, f) ==> k in s.objects
  {
  }

  lemma WriteAgrees(s: Shot<SetBody>, clock: nat, rest: Sys, k: Key, r: Option<SetObject>)
    requires Sane(s)
    ensures Serving(WriteShot(s, k, clock + 1, r), clock + 1, rest) == Store(Serving(s, clock, rest), k, r)
  {
  }

  lemma PutAgrees(s: Shot<SetBody>, clock: nat, rest: Sys, k: Key, c: Copy)
    requires Sane(s) && k in s.objects
    ensures k in Serving(s, clock, rest).objects
    ensures Serving(WriteShot(s, k, clock + 1, AfterPost(s.objects[k], c.obj)), clock + 1, rest)
            == Put(Serving(s, clock, rest), k, c)
  {
    hide AfterPost;
    WriteAgrees(s, clock, rest, k, AfterPost(s.objects[k], c.obj));
  }

  lemma StoredIsMarked(s: Shot<SetBody>, clock: nat, rest: Sys, k: Key, c: Copy)
    requires Sane(s) && k in s.objects && FINALIZER in c.obj.finalizers
    ensures var t := WriteShot(s, k, clock + 1, AfterPost(s.objects[k], c.obj));
      && k in t.objects && k in t.versions && FINALIZER in t.objects[k].finalizers
      && k in Serving(t, clock + 1, rest).objects
      && Serving(t, clock + 1, rest).objects[k] == Held(t.versions[k], t.objects[k])
  {
  }

  function WithFinalizer(c: Copy): Copy {
    c.(obj := c.obj.(finalizers := c.obj.finalizers + {FINALIZER}))
  }

  function WithoutFinalizer(c: Copy): Copy {
    c.(obj := c.obj.(finalizers := c.obj.finalizers - {FINALIZER}))
  }

  // ---------- The others ----------

  type Acts = seq<Outside<SetBody>>

  /** Namespaces have no slash, and nobody else takes the operator's finalizer off. */
  ghost predicate Decent(a: Outside<SetBody>) {
    && (a.Creates? ==> PlainKey(a.key))
    && (a.Edits? ==> forall o :: KeepsFinalizer(o, a.edit(o)))
  }

  ghost predicate AllDecent(acts: Acts) {
    forall a :: a in acts ==> Decent(a)
  }

  /** The machine's name for what somebody else does. */
  function ActionOf(objects: Objects<SetBody>, a: Outside<SetBody>): Action {
    match a
    case Creates(k, o) => UserCreate(k, o)
    case Deletes(k) => UserDelete(k)
    case Edits(k, edit) => if k in objects then Foreign(k, edit(objects[k])) else UserDelete(k)
  }

  lemma OutsideIsAStep(s: Shot<SetBody>, clock: nat, rest: Sys, a: Outside<SetBody>)
    requires Sane(s) && Decent(a)
    ensures var w, m := OutsideWrite(s.objects, a), Serving(s, clock, rest);
      && Next(m, ActionOf(s.objects, a), if w.Some? then Store(m, a.key, w.value) else m)
      && Guided(m, ActionOf(s.objects, a))
  {
  }

  /** A Reconcile to be done: for which object, what becomes of its calls, and what others do before
      each of its steps. */
  datatype Request = Request(key: Key, fates: nat -> Fate, others: nat -> Acts, clientName: Option<string>, stamp: nat)

  ghost predicate AmongDecent(q: Request) {
    forall i :: AllDecent(q.others(i))
  }

  // ---------- What a Reconcile comes to ----------

  /** `k` ends as `left`, and no other object changes. */
  ghost predicate Leaves(st: Objects<SetBody>, st': Objects<SetBody>, k: Key, left: Option<SetObject>) {
    At(st', k) == left && forall j :: j != k ==> At(st', j) == At(st, j)
  }

  /** A post of the copy `c`, from its moment on. */
  ghost predicate PostEnds(s: Shot<SetBody>, st': Objects<SetBody>, k: Key, c: Copy, f: Fate, r: Result<()>) {
    var e := Posting(s, k, c, f);
    r == e.reply && Leaves(s.objects, st', k, e.left)
  }

  /** The post of the finalizer, and the object as it is stored. */
  ghost predicate MarkEnds(s: Shot<SetBody>, clock: nat, s': Shot<SetBody>, k: Key, c: Copy, f: Fate, r: Result<()>,
                           stored: Copy) {
    var e := Posting(s, k, c, f);
    && PostEnds(s, s'.objects, k, c, f, r)
    && (r.Ok? ==> e.left.Some? && stored == Held(clock + 1, e.left.value) && s' == WriteShot(s, k, clock + 1, e.left))
  }

  lemma PostLeaves(s: Shot<SetBody>, clock: nat, s': Shot<SetBody>, k: Key, c: Copy, f: Fate)
    requires var e := Posting(s, k, c, f);
      s' == if e.wrote then WriteShot(s, k, clock + 1, e.left) else s
    ensures Leaves(s.objects, s'.objects, k, Posting(s, k, c, f).left)
  {
  }

  /** The last steps of a deletion: fetch again, and post without the finalizer. */
  ghost predicate ReleaseEnds(q: Request, s: Shot<SetBody>, st': Objects<SetBody>, r: Result<()>) {
    match Look(s, q.key, q.fates(2))
    case Err(e) => r == Err(e) && st' == s.objects
    case Ok(h) => PostEnds(s, st', q.key, WithoutFinalizer(h), q.fates(3), r)
  }

  /** What the two registries are. */
  datatype Books = Books(managers: View, clients: map<string, Handler>)

  ghost predicate Unregistered(k: Key, b: Books, b': Books) {
    Removes(b.managers, b'.managers, Slot(k)) && b'.clients == b.clients - {Slot(k)}
  }

  /** How a Reconcile may have left the registries, by how it ended. */
  ghost predicate Aftermath(q: Request, end: Outcome, b: Books, b': Books) {
    match end
    case Registered(k) => k == q.key && exists url :: RegisterEnds(q, url, b, b', true)
    case Finalized => Unregistered(q.key, b, b')
    case Failed => b' == b || Unregistered(q.key, b, b')
    case _ => b' == b
  }

  lemma ProceedHasAftermath(q: Request, copy: Copy, b: Books, b': Books, r: Result<()>)
    ensures Unregistered(q.key, b, b') ==> Aftermath(q, if r.Err? then Failed else Finalized, b, b')
    ensures RegisterEnds(q, copy.obj.body.spec.managerUrl, b, b', r.Ok?) ==>
      Aftermath(q, if r.Err? then Failed else Registered(q.key), b, b')
  {
  }

  /** With the child resources in place and a client name at hand, into both registries; else into
      neither. */
  ghost predicate RegisterEnds(q: Request, url: string, b: Books, b': Books, ok: bool) {
    var h := Handler(q.key, q.stamp);
    && (ok <==> q.fates(2).Deliver? && q.clientName.Some?)
    && (if ok then Adds(b.managers, b'.managers, url, h) && b'.clients == b.clients[Slot(q.key) := h] else b' == b)
  }

  ghost predicate ProceedEnds(q: Request, copy: Copy, s: Shot<SetBody>, st': Objects<SetBody>, b: Books, b': Books,
                              r: Result<()>) {
    if copy.obj.deleting then Unregistered(q.key, b, b') && ReleaseEnds(q, s, st', r)
    else RegisterEnds(q, copy.obj.body.spec.managerUrl, b, b', r.Ok?) && st' == s.objects
  }

  /** A Reconcile with nobody else at work, for every fate of its calls. */
  ghost predicate ReconcileEnds(q: Request, s: Shot<SetBody>, clock: nat, st': Objects<SetBody>, b: Books, b': Books,
                                r: Result<()>) {
    match Look(s, q.key, q.fates(0))
    case Err(e) => st' == s.objects && b' == b && r == if e == NotFound then Ok(()) else Err(e)
    case Ok(h) =>
      if FINALIZER in h.obj.finalizers then ProceedEnds(q, h, s, st', b, b', r)
      else
        var e := Posting(s, q.key, WithFinalizer(h), q.fates(1));
        if e.reply.Err? then PostEnds(s, st', q.key, WithFinalizer(h), q.fates(1), r) && b' == b
        else
          var s1 := WriteShot(s, q.key, clock + 1, e.left);
          e.left.Some? && ProceedEnds(q, Held(clock + 1, e.left.value), s1, st', b, b', r)
  }

  /** The first fetch of the request is among the actions, from the position `from` on. */
  ghost predicate Started(actions: seq<Action>, from: nat, q: Request) {
    exists i :: from <= i < |actions| && actions[i] == Begin(q.key, q.fates(0))
  }

  lemma StartedStays(a: seq<Action>, b: seq<Action>, from: nat, since: nat, q: Request)
    requires a <= b && since <= from && Started(a, from, q)
    ensures Started(b, since, q)
  {
    var i :| from <= i < |a| && a[i] == Begin(q.key, q.fates(0));
    assert b[i] == a[i];
  }

  ghost predicate AllStarted(actions: seq<Action>, requests: seq<Request>) {
    forall q :: q in requests ==> Started(actions, 0, q)
  }

  lemma OneMoreStarted(a: seq<Action>, b: seq<Action>, requests: seq<Request>, i: nat)
    requires i < |requests| && a <= b && AllStarted(a, requests[..i]) && Started(b, |a|, requests[i])
    ensures AllStarted(b, requests[..i + 1])
  {
    forall q | q in requests[..i + 1] ensures Started(b, 0, q) {
      if q in requests[..i] {
        StartedStays(a, b, 0, 0, q);
      } else {
        StartedStays(b, b, |a|, 0, q);
      }
    }
  }

  /** Nobody else acts during the Reconcile. */
  ghost predicate Alone(q: Request) {
    forall i :: |q.others(i)| == 0
  }

  ghost predicate Served(q: Request) {
    forall i :: q.fates(i) == Deliver
  }

  /** If all is served, a GlideinSet that is not under deletion ends with the finalizer on, watched at
      its manager URL, and with a collector client; nothing else changes. */
  ghost predicate SetUp(q: Request, st: Objects<SetBody>, st': Objects<SetBody>, b: Books, b': Books)
    requires q.key in st
  {
    var o, slot := st[q.key], q.key.namespace + "/" + q.key.name;
    && st' == st[q.key := o.(finalizers := o.finalizers + {"gmos.chtc.wisc.edu/finalizer"})]
    && b'.clients == b.clients[slot := Handler(q.key, q.stamp)]
    && Has(b'.managers, o.body.spec.managerUrl, slot)
    && (Has(b.managers, o.body.spec.managerUrl, slot) ==> b'.managers == b.managers)
    && (!Has(b.managers, o.body.spec.managerUrl, slot) ==>
          b'.managers[o.body.spec.managerUrl][slot] == Handler(q.key, q.stamp))
    && (forall n :: n != slot ==> Holders(b'.managers, n) == Holders(b.managers, n))
  }

  /** If all is served, one under deletion loses the finalizer, or is gone if that was its last; its
      client goes, and so does one of its watchers, if it has any. */
  ghost predicate CleanedUp(q: Request, st: Objects<SetBody>, st': Objects<SetBody>, b: Books, b': Books)
    requires q.key in st
  {
    var o, slot := st[q.key], q.key.namespace + "/" + q.key.name;
    var rest := o.finalizers - {"gmos.chtc.wisc.edu/finalizer"};
    && Leaves(st, st', q.key, if rest == {} then None else Some(o.(finalizers := rest)))
    && b'.clients == b.clients - {slot}
    && |Holders(b'.managers, slot)| == (if |Holders(b.managers, slot)| == 0 then 0 else |Holders(b.managers, slot)| - 1)
    && (forall n :: n != slot ==> Holders(b'.managers, n) == Holders(b.managers, n))
  }

  lemma ServedSetsUp(q: Request, s: Shot<SetBody>, clock: nat, st': Objects<SetBody>, b: Books, b': Books,
                     r: Result<()>)
    requires Sane(s) && NoneEmpty(b.managers) && ReconcileEnds(q, s, clock, st', b, b', r)
    requires Served(q) && q.clientName.Some? && q.key in s.objects && !s.objects[q.key].deleting
    ensures r.Ok? && SetUp(q, s.objects, st', b, b')
  {
    hide Adds, Has, Holders, NoneEmpty, Slot;
    var o := s.objects[q.key];
    var marked := o.(finalizers := o.finalizers + {FINALIZER});
    assert FINALIZER in o.finalizers ==> marked == o;
    assert Adds(b.managers, b'.managers, o.body.spec.managerUrl, Handler(q.key, q.stamp));
    RegistersOnce(q, o.body.spec.managerUrl, b, b');
  }

  lemma RegistersOnce(q: Request, url: string, b: Books, b': Books)
    requires NoneEmpty(b.managers) && Adds(b.managers, b'.managers, url, Handler(q.key, q.stamp))
    ensures var slot := q.key.namespace + "/" + q.key.name;
      && slot == Slot(q.key) && Has(b'.managers, url, slot)
      && (Has(b.managers, url, slot) ==> b'.managers == b.managers)
      && (!Has(b.managers, url, slot) ==> b'.managers[url][slot] == Handler(q.key, q.stamp))
      && (forall n :: n != slot ==> Holders(b'.managers, n) == Holders(b.managers, n))
  {
    AddCounts(b.managers, b'.managers, url, Handler(q.key, q.stamp));
  }

  lemma ServedCleansUp(q: Request, s: Shot<SetBody>, clock: nat, st': Objects<SetBody>, b: Books, b': Books,
                       r: Result<()>)
    requires Sane(s) && NoneEmpty(b.managers) && ReconcileEnds(q, s, clock, st', b, b', r)
    requires Served(q) && q.key in s.objects && s.objects[q.key].deleting && FINALIZER in s.objects[q.key].finalizers
    ensures r.Ok? && CleanedUp(q, s.objects, st', b, b')
  {
    RemoveCounts(b.managers, b'.managers, Slot(q.key));
  }

  /** Under deletion without the finalizer: the server takes no new one, so the Reconcile fails. */
  lemma ServedIsRefused(q: Request, s: Shot<SetBody>, clock: nat, st': Objects<SetBody>, b: Books, b': Books,
                        r: Result<()>)
    requires Sane(s) && ReconcileEnds(q, s, clock, st', b, b', r)
    requires Served(q) && q.key in s.objects && s.objects[q.key].deleting && FINALIZER !in s.objects[q.key].finalizers
    ensures r == Err(Invalid) && st' == s.objects && b' == b
  {
    SameStore(st', s.objects);
  }

  /** If the first fetch is served and the child resources are not, nothing is registered. */
  lemma FailedBuildRegistersNothing(q: Request, s: Shot<SetBody>, clock: nat, st': Objects<SetBody>,
                                    b: Books, b': Books, r: Result<()>)
    requires Sane(s) && ReconcileEnds(q, s, clock, st', b, b', r)
    requires q.fates(0) == Deliver && q.key in s.objects && !s.objects[q.key].deleting
    requires !q.fates(2).Deliver? || q.clientName.None?
    ensures r.Err? && b' == b
    ensures FINALIZER in s.objects[q.key].finalizers ==> st' == s.objects
  {
  }

  /** And if it finds nothing, there is nothing to do. */
  lemma AbsentIsFine(q: Request, s: Shot<SetBody>, clock: nat, st': Objects<SetBody>, b: Books, b': Books,
                     r: Result<()>)
    requires ReconcileEnds(q, s, clock, st', b, b', r) && q.fates(0) == Deliver && q.key !in s.objects
    ensures r.Ok? && st' == s.objects && b' == b
  {
  }

  lemma ReconcileMeans(q: Request, s: Shot<SetBody>, clock: nat, st': Objects<SetBody>, b: Books, b': Books,
                       r: Result<()>)
    requires Sane(s) && NoneEmpty(b.managers) && ReconcileEnds(q, s, clock, st', b, b', r)
    ensures Served(q) && q.key in s.objects && !s.objects[q.key].deleting && q.clientName.Some? ==>
      r.Ok? && SetUp(q, s.objects, st', b, b')
    ensures Served(q) && q.key in s.objects && s.objects[q.key].deleting && FINALIZER in s.objects[q.key].finalizers ==>
      r.Ok? && CleanedUp(q, s.objects, st', b, b')
    ensures q.fates(0) == Deliver && q.key in s.objects && !s.objects[q.key].deleting && !q.fates(2).Deliver? ==>
      r.Err? && b' == b
    ensures q.fates(0) == Deliver && q.key !in s.objects ==> r.Ok? && st' == s.objects && b' == b
  {
    hide ReconcileEnds, SetUp, CleanedUp, Served;
    if Served(q) && q.key in s.objects && !s.objects[q.key].deleting && q.clientName.Some? {
      ServedSetsUp(q, s, clock, st', b, b', r);
    }
    if Served(q) && q.key in s.objects && s.objects[q.key].deleting && FINALIZER in s.objects[q.key].finalizers {
      ServedCleansUp(q, s, clock, st', b, b', r);
    }
    if q.fates(0) == Deliver && q.key in s.objects && !s.objects[q.key].deleting && !q.fates(2).Deliver? {
      FailedBuildRegistersNothing(q, s, clock, st', b, b', r);
    }
    if q.fates(0) == Deliver && q.key !in s.objects {
      AbsentIsFine(q, s, clock, st', b, b', r);
    }
  }

  // ---------- The reconciler ----------

  class Reconciler {
    const api: ApiServer<SetBody>
    const managers: Registry
    const clients: Clients
    /** Every state there was, and what led from each to the next. */
    ghost var moments: seq<Sys>
    ghost var actions: seq<Action>

    constructor ()
      ensures Stands(Idle(Nothing)) && moments == [START]
      ensures fresh(api) && fresh(managers) && fresh(clients) && managers.made == {} && clients.made == {}
    {
      hide Copies;
      api := new ApiServer();
      managers := new Registry();
      clients := new Clients();
      moments, actions := [START], [];
      new;
      CopiesOfNothing(api.Now());
    }

    ghost predicate Valid()
      reads api, managers, managers.made, clients, clients.made
    {
      api.Valid() && managers.Valid() && clients.Valid()
    }

    /** The present state, with the Reconcile at `pc`. */
    ghost function Seen(pc: Pc): Sys
      reads api, managers, clients
    {
      Serving(api.Now(), api.clock, Sys(map[], {}, 0, clients.content.Keys, managers.content, pc))
    }

    ghost function Booked(): Books
      reads managers, clients
    {
      Books(managers.content, clients.content)
    }

    /** The moments are a run of the machine up to the present state. */
    ghost predicate Stands(pc: Pc)
      reads this, api, managers, managers.made, clients, clients.made
    {
      Valid() && |moments| == |actions| + 1 && Steps(moments, actions) && moments[|actions|] == Seen(pc)
    }

    /** No first fetch so far was misleading. */
    ghost predicate Sound()
      reads this
    {
      |moments| == |actions| + 1 && AllGuided(moments, actions)
    }

    /** The present state becomes the next moment, if the machine can get there by `a`. */
    ghost method Record(a: Action, pc: Pc)
      requires Valid() && Steps(moments, actions) && Next(moments[|actions|], a, Seen(pc))
      modifies this`moments, this`actions
      ensures Stands(pc) && moments == old(moments) + [Seen(pc)] && actions == old(actions) + [a]
      ensures old(Sound()) && Guided(old(moments[|actions|]), a) ==> Sound()
    {
      hide Next, Guided, Seen, Valid;
      ghost var m, n := Seen(pc), |actions|;
      forall i | 0 <= i < n ensures Next((moments + [m])[i], (actions + [a])[i], (moments + [m])[i + 1]) {
      }
      moments, actions := moments + [m], actions + [a];
    }

    // ---------- One call or registry operation each ----------

    method Fetch(k: Key, f: Fate, ghost pc: Pc) returns (got: Result<Copy>)
      requires Stands(pc)
      ensures got == Get(moments[|actions|], k, f) && got == Look(api.Now(), k, f)
    {
      hide Look, Get;
      LookAgrees(api.Now(), api.clock, Seen(pc), k, f);
      got := api.Get(k, f);
    }

    /** What somebody else does is a step of the machine, wherever the Reconcile is. */
    method OneActs(a: Outside<SetBody>, ghost pc: Pc)
      requires Stands(pc) && Decent(a)
      modifies api, this`moments, this`actions
      ensures Stands(pc) && old(moments) <= moments && old(actions) <= actions && (old(Sound()) ==> Sound())
    {
      hide Next, Guided, Decent, OutsideWrite, Store, Copies, WriteShot, Steps, Sound, managers.Valid, clients.Valid;
      ghost var before, clock, action := api.Now(), api.clock, ActionOf(api.objects, a);
      ghost var w := OutsideWrite(api.objects, a);
      OutsideIsAStep(before, clock, Seen(pc), a);
      WriteAgrees(before, clock, Seen(pc), a.key, if w.Some? then w.value else None);
      Interfere(api, a);
      Record(action, pc);
    }

    /** A post, with what the machine makes of it. */
    method Post(k: Key, c: Copy, f: Fate, ghost pc: Pc) returns (r: Result<()>)
      requires Stands(pc)
      modifies api
      ensures Valid()
      ensures var s := old(Seen(pc));
        if Takes(s, k, c, f) then Seen(pc) == Put(s, k, c) && (r.Ok? <==> !f.LoseReply?)
        else Seen(pc) == s && r.Err?
      ensures PostEnds(old(api.Now()), api.objects, k, c, f, r)
      ensures r.Ok? ==> var left := Posting(old(api.Now()), k, c, f).left;
        api.Now() == WriteShot(old(api.Now()), k, old(api.clock) + 1, left)
      ensures r.Ok? && FINALIZER in c.obj.finalizers ==>
        k in api.objects && k in api.versions && k in Seen(pc).objects
        && Seen(pc).objects[k] == Held(api.versions[k], api.objects[k]) && FINALIZER in api.objects[k].finalizers
    {
      hide Takes, Put, Store, Refusal, AfterPost, WriteShot, Copies, Steps, Sane, Leaves, managers.Valid, clients.Valid;
      ghost var before, clock := api.Now(), api.clock;
      RefusalAgrees(before, clock, Seen(pc), k, c, f);
      if k in api.objects {
        PutAgrees(before, clock, Seen(pc), k, c);
        if FINALIZER in c.obj.finalizers {
          StoredIsMarked(before, clock, Seen(pc), k, c);
        }
      }
      r := api.Update(k, c, f);
      PostLeaves(before, clock, api.Now(), k, c, f);
    }

    method PutOn(k: Key, copy: Copy, f: Fate) returns (r: Result<()>, stored: Copy)
      requires Stands(Marking(k, copy)) && FINALIZER in copy.obj.finalizers
      modifies api, this`moments, this`actions
      ensures Stands(if r.Ok? then Deciding(k, stored) else Idle(Failed))
      ensures r.Ok? ==> FINALIZER in stored.obj.finalizers
      ensures MarkEnds(old(api.Now()), old(api.clock), api.Now(), k, copy, f, r, stored)
      ensures old(actions) <= actions
      ensures moments == old(moments) + [Seen(if r.Ok? then Deciding(k, stored) else Idle(Failed))]
      ensures old(Sound()) ==> Sound()
    {
      hide Takes, Put, Steps, Sound, Valid;
      r := Post(k, copy, f, Marking(k, copy));
      stored := copy;
      if r.Ok? {
        stored := Held(api.versions[k], api.objects[k]);
      }
      Record(Go(f, 0), if r.Ok? then Deciding(k, stored) else Idle(Failed));
    }

    method TakeOff(k: Key, copy: Copy, f: Fate) returns (r: Result<()>)
      requires Stands(Releasing(k, copy))
      modifies api, this`moments, this`actions
      ensures Stands(Idle(if r.Err? then Failed else Finalized))
      ensures old(actions) <= actions && moments == old(moments) + [Seen(Idle(if r.Err? then Failed else Finalized))]
      ensures PostEnds(old(api.Now()), api.objects, k, copy, f, r)
      ensures old(Sound()) ==> Sound()
    {
      hide Takes, Put, Steps, Sound, Valid;
      r := Post(k, copy, f, Releasing(k, copy));
      Record(Go(f, 0), Idle(if r.Err? then Failed else Finalized));
    }

    method Unwatch(k: Key)
      requires Stands(Unwatching(k))
      modifies managers, managers.made, this`moments, this`actions
      ensures Stands(Unclienting(k)) && moments == old(moments) + [Seen(Unclienting(k))] && old(actions) <= actions
      ensures clients.content == old(clients.content) && (old(Sound()) ==> Sound())
      ensures managers.made == old(managers.made) && Removes(old(managers.content), managers.content, Slot(k))
    {
      hide Slot, Removes, Steps, Sound, api.Valid, clients.Valid, managers.Valid;
      managers.Remove(Slot(k));
      Record(Go(Deliver, 0), Unclienting(k));
    }

    method Unclient(k: Key)
      requires Stands(Unclienting(k))
      modifies clients, clients.made, this`moments, this`actions
      ensures Stands(Refreshing(k)) && moments == old(moments) + [Seen(Refreshing(k))] && old(actions) <= actions
      ensures managers.content == old(managers.content) && (old(Sound()) ==> Sound())
      ensures clients.made == old(clients.made) && clients.content == old(clients.content) - {Slot(k)}
    {
      hide Slot, Steps, Sound, api.Valid, clients.Valid, managers.Valid;
      clients.Remove(Slot(k));
      Record(Go(Deliver, 0), Refreshing(k));
    }

    method Watch(q: Request, copy: Copy) returns (r: Result<()>)
      requires Stands(Watching(q.key, copy))
      modifies managers, managers.made, this`moments, this`actions
      ensures Stands(if r.Err? then Idle(Failed) else Clienting(q.key))
      ensures old(actions) <= actions
      ensures moments == old(moments) + [Seen(if r.Err? then Idle(Failed) else Clienting(q.key))]
      ensures clients.content == old(clients.content) && (old(Sound()) ==> Sound())
      ensures fresh(managers.made - old(managers.made))
      ensures r.Ok? <==> q.clientName.Some?
      ensures if r.Err? then managers.content == old(managers.content)
              else Adds(old(managers.content), managers.content, copy.obj.body.spec.managerUrl, Handler(q.key, q.stamp))
    {
      hide Slot, Adds, Steps, Sound, api.Valid, clients.Valid, managers.Valid;
      r := managers.Add(q.clientName, copy.obj.body.spec.managerUrl, Handler(q.key, q.stamp));
      Record(Go(if q.clientName.Some? then Deliver else Refuse, q.stamp),
             if r.Err? then Idle(Failed) else Clienting(q.key));
    }

    method AddClient(k: Key, h: Handler)
      requires Stands(Clienting(k)) && h.resource == k
      modifies clients, clients.made, this`moments, this`actions
      ensures Stands(Idle(Registered(k))) && moments == old(moments) + [Seen(Idle(Registered(k)))]
          && old(actions) <= actions
      ensures managers.content == old(managers.content) && (old(Sound()) ==> Sound())
      ensures fresh(clients.made - old(clients.made)) && clients.content == old(clients.content)[Slot(k) := h]
    {
      hide Slot, Steps, Sound, api.Valid, clients.Valid, managers.Valid;
      clients.Add(h);
      Record(Go(Deliver, 0), Idle(Registered(k)));
    }

    /** A step that touches nothing but the Reconcile's own place. */
    ghost method Advance(from: Pc, a: Action, pc: Pc)
      requires Stands(from) && a.Go? && Next(moments[|actions|], a, moments[|actions|].(pc := pc))
      modifies this`moments, this`actions
      ensures Stands(pc) && moments == old(moments) + [Seen(pc)] && old(actions) <= actions
          && (old(Sound()) ==> Sound())
    {
      hide Steps, Sound, Valid, Next;
      Record(a, pc);
    }

    // ---------- The whole ----------

    method OthersAct(acts: Acts, ghost pc: Pc)
      requires Stands(pc) && AllDecent(acts)
      modifies api, this`moments, this`actions
      ensures Stands(pc) && old(moments) <= moments && old(actions) <= actions && (old(Sound()) ==> Sound())
      ensures |acts| == 0 ==> api.Now() == old(api.Now()) && api.clock == old(api.clock)
    {
      hide Stands, Sound, Decent;
      for i := 0 to |acts|
        invariant i == 0 ==> api.Now() == old(api.Now()) && api.clock == old(api.clock)
        invariant Stands(pc) && old(moments) <= moments && old(actions) <= actions && (old(Sound()) ==> Sound())
      {
        OneActs(acts[i], pc);
      }
    }

    /** Reconciles one after the other, each amid what others do: all that happens is a run of the
        machine. If no first fetch reads an old state, at no moment is there an orphaned client. */
    method Run(requests: seq<Request>)
      requires Stands(Idle(Nothing)) && moments == [START]
      requires forall q :: q in requests ==> AmongDecent(q)
      modifies this`moments, this`actions, api, managers, managers.made, clients, clients.made
      ensures Trace(moments, actions) && moments[|actions|] == Seen(moments[|actions|].pc)
      ensures AllStarted(actions, requests)
      ensures (forall q :: q in requests ==> !q.fates(0).Stale?) ==> forall s :: s in moments ==> NoOrphanClients(s)
    {
      hide AllStarted, Started, Stands, Sound, AmongDecent, Aftermath, ReconcileEnds, SetUp, CleanedUp, Alone,
          Served, Seen;
      ghost var last := Nothing;
      AtFirst();
      assert requests[..0] == [];
      for i := 0 to |requests|
        invariant Stands(Idle(last)) && [START] <= moments && AllStarted(actions, requests[..i])
        invariant (forall q :: q in requests ==> !q.fates(0).Stale?) ==> Sound()
        invariant fresh(managers.made - old(managers.made)) && fresh(clients.made - old(clients.made))
      {
        var r;
        ghost var before := actions;
        r, last := Reconcile(requests[i], last);
        OneMoreStarted(before, actions, requests, i);
      }
      assert requests[..|requests|] == requests;
      AtLast(last);
    }

    lemma AtFirst()
      requires Stands(Idle(Nothing)) && moments == [START]
      ensures Sound() && AllStarted(actions, [])
    {
    }

    lemma AtLast(last: Outcome)
      requires Stands(Idle(last)) && [START] <= moments
      ensures |moments| == |actions| + 1 && Trace(moments, actions) && moments[|actions|] == Seen(moments[|actions|].pc)
      ensures Sound() ==> forall s :: s in moments ==> NoOrphanClients(s)
    {
      SoundRunsHaveNoOrphans(moments, actions);
    }

    /** One Reconcile. Each call and each registry operation is one step of the machine, in the
        machine's order, with what others do as steps in between. It reports an error exactly when the
        machine ends in failure. */
    method Reconcile(q: Request, ghost last: Outcome) returns (r: Result<()>, ghost end: Outcome)
      requires Stands(Idle(last)) && AmongDecent(q)
      modifies this`moments, this`actions, api, managers, managers.made, clients, clients.made
      ensures Stands(Idle(end)) && old(moments) <= moments && old(actions) <= actions
          && (old(Sound()) && !q.fates(0).Stale? ==> Sound())
      ensures r.Err? <==> end == Failed
      ensures fresh(managers.made - old(managers.made)) && fresh(clients.made - old(clients.made))
      ensures Started(actions, |old(actions)|, q)
      // Whatever others do: what becomes of the registries.
      ensures Aftermath(q, end, old(Booked()), Booked())
      // With nobody else at work: exactly what is left, for every fate of the calls.
      ensures Alone(q) ==>
        ReconcileEnds(q, old(api.Now()), old(api.clock), api.objects, old(Booked()), Booked(), r)
      // In particular: set up, cleaned up, or left alone.
      ensures Alone(q) && Served(q) && q.clientName.Some?
              && q.key in old(api.objects) && !old(api.objects)[q.key].deleting ==>
        r.Ok? && SetUp(q, old(api.objects), api.objects, old(Booked()), Booked())
      ensures Alone(q) && Served(q) && q.key in old(api.objects) && old(api.objects)[q.key].deleting
              && FINALIZER in old(api.objects)[q.key].finalizers ==>
        r.Ok? && CleanedUp(q, old(api.objects), api.objects, old(Booked()), Booked())
      ensures Alone(q) && q.fates(0) == Deliver && q.key in old(api.objects) && !old(api.objects)[q.key].deleting
              && !q.fates(2).Deliver? ==>
        r.Err? && Booked() == old(Booked())
      ensures Alone(q) && q.fates(0) == Deliver && q.key !in old(api.objects) ==>
        r.Ok? && api.objects == old(api.objects) && Booked() == old(Booked())
    {
      hide Started, Stands, Sound, Aftermath, ReconcileEnds, SetUp, CleanedUp, Served, Alone;
      ghost var s, clock, b := api.Now(), api.clock, Booked();
      ServerIsSane(last);
      r, end := Attempt(q, last);
      if Alone(q) {
        ReconcileMeans(q, s, clock, api.objects, b, Booked(), r);
      }
    }

    lemma ServerIsSane(last: Outcome)
      requires Stands(Idle(last))
      ensures Sane(api.Now()) && NoneEmpty(managers.content)
    {
    }

    method Attempt(q: Request, ghost last: Outcome) returns (r: Result<()>, ghost end: Outcome)
      requires Stands(Idle(last)) && AmongDecent(q)
      modifies this`moments, this`actions, api, managers, managers.made, clients, clients.made
      ensures Stands(Idle(end)) && old(moments) <= moments && old(actions) <= actions
          && (old(Sound()) && !q.fates(0).Stale? ==> Sound())
      ensures r.Err? <==> end == Failed
      ensures fresh(managers.made - old(managers.made)) && fresh(clients.made - old(clients.made))
      ensures Started(actions, |old(actions)|, q)
      ensures Aftermath(q, end, old(Booked()), Booked())
      ensures Alone(q) ==>
        ReconcileEnds(q, old(api.Now()), old(api.clock), api.objects, old(Booked()), Booked(), r)
    {
      hide Started, Stands, Sound, AllDecent, WithFinalizer, Look, Leaves, ProceedEnds, Posting, WriteShot, Adds,
          Removes, Slot;
      ghost var from := |actions|;
      var got := First(q, last);
      ghost var begun := actions;
      if got.Err? {
        r := if got.error == NotFound then Ok(()) else Err(got.error);
        end := if got.error == NotFound then Absent else Failed;
        return;
      }
      var copy := got.value;
      if FINALIZER !in copy.obj.finalizers {
        copy := WithFinalizer(copy);
        r, copy := Mark(q, copy);
        if r.Err? {
          end := Failed;
          StartedStays(begun, actions, from, from, q);
          return;
        }
      }
      r, end := Proceed(q, copy);
      StartedStays(begun, actions, from, from, q);
    }

    /** The first fetch. */
    method First(q: Request, ghost last: Outcome) returns (got: Result<Copy>)
      requires Stands(Idle(last)) && AmongDecent(q)
      modifies api, this`moments, this`actions
      ensures Stands(match got
        case Err(e) => Idle(if e == NotFound then Absent else Failed)
        case Ok(h) => if FINALIZER in h.obj.finalizers then Deciding(q.key, h) else Marking(q.key, WithFinalizer(h)))
      ensures old(moments) <= moments && old(actions) <= actions && (old(Sound()) && !q.fates(0).Stale? ==> Sound())
      ensures |q.others(0)| == 0 ==>
        api.Now() == old(api.Now()) && api.clock == old(api.clock) && got == Look(old(api.Now()), q.key, q.fates(0))
      ensures Started(actions, |old(actions)|, q)
      ensures got.Ok? && FINALIZER !in got.value.obj.finalizers ==> FINALIZER in WithFinalizer(got.value).obj.finalizers
    {
      hide Steps, Sound, Valid, Get, Look;
      OthersAct(q.others(0), Idle(last));
      got := Fetch(q.key, q.fates(0), Idle(last));
      if !q.fates(0).Stale? {
        FetchIsGuided(moments[|actions|], q.key, q.fates(0));
      }
      Record(Begin(q.key, q.fates(0)), Begun(moments[|actions|], q.key, q.fates(0)));
      assert actions[|actions| - 1] == Begin(q.key, q.fates(0));
    }

    /** Post the finalizer and go on with what the server stored. */
    method Mark(q: Request, copy: Copy) returns (r: Result<()>, stored: Copy)
      requires Stands(Marking(q.key, copy)) && AmongDecent(q) && FINALIZER in copy.obj.finalizers
      modifies api, this`moments, this`actions
      ensures Stands(if r.Ok? then Deciding(q.key, stored) else Idle(Failed))
      ensures r.Ok? ==> FINALIZER in stored.obj.finalizers
      ensures old(moments) <= moments && old(actions) <= actions && (old(Sound()) ==> Sound())
      ensures |q.others(1)| == 0 ==>
        MarkEnds(old(api.Now()), old(api.clock), api.Now(), q.key, copy, q.fates(1), r, stored)
    {
      hide Stands, Sound, AllDecent, MarkEnds;
      OthersAct(q.others(1), Marking(q.key, copy));
      r, stored := PutOn(q.key, copy, q.fates(1));
    }

    /** The object carries the finalizer: clean up if it is under deletion, else set it up. */
    method Proceed(q: Request, copy: Copy) returns (r: Result<()>, ghost end: Outcome)
      requires Stands(Deciding(q.key, copy)) && AmongDecent(q) && FINALIZER in copy.obj.finalizers
      modifies this`moments, this`actions, api, managers, managers.made, clients, clients.made
      ensures Stands(Idle(end)) && old(moments) <= moments && old(actions) <= actions && (old(Sound()) ==> Sound())
      ensures r.Err? <==> end == Failed
      ensures fresh(managers.made - old(managers.made)) && fresh(clients.made - old(clients.made))
      ensures Aftermath(q, end, old(Booked()), Booked())
      ensures Alone(q) ==> ProceedEnds(q, copy, old(api.Now()), api.objects, old(Booked()), Booked(), r)
    {
      hide Sound, AllDecent, Valid, Steps, ReleaseEnds, RegisterEnds, Unregistered, Aftermath;
      ghost var b := Booked();
      if copy.obj.deleting {
        Advance(Deciding(q.key, copy), Go(Deliver, 0), Unwatching(q.key));
        Unregister(q);
        r := Release(q);
        end := if r.Err? then Failed else Finalized;
      } else {
        Advance(Deciding(q.key, copy), Go(Deliver, 0), Building(q.key, copy));
        r := Register(q, copy);
        end := if r.Err? then Failed else Registered(q.key);
      }
      ProceedHasAftermath(q, copy, b, Booked(), r);
    }

    /** Out of the manager registry, then out of the client registry: at some moment the watcher is gone
        and the client is still as it was. */
    method Unregister(q: Request)
      requires Stands(Unwatching(q.key)) && AmongDecent(q)
      modifies this`moments, this`actions, api, managers, managers.made, clients, clients.made
      ensures Stands(Refreshing(q.key)) && old(moments) <= moments && old(actions) <= actions
          && (old(Sound()) ==> Sound())
      ensures exists i :: |old(moments)| <= i < |moments| && moments[i].pc == Unclienting(q.key)
                          && moments[i].watch == managers.content && moments[i].clients == old(clients.content.Keys)
      ensures managers.made == old(managers.made) && clients.made == old(clients.made)
      ensures Unregistered(q.key, old(Booked()), Booked())
      ensures Alone(q) ==> api.Now() == old(api.Now())
    {
      hide Stands, Sound, AllDecent, Removes, Slot;
      OthersAct(q.others(2), Unwatching(q.key));
      Unwatch(q.key);
      ghost var i, m := |moments| - 1, moments[|moments| - 1];
      OthersAct(q.others(3), Unclienting(q.key));
      Unclient(q.key);
      assert moments[i] == m;
    }

    /** A new fetch, and off with the finalizer. */
    method Release(q: Request) returns (r: Result<()>)
      requires Stands(Refreshing(q.key)) && AmongDecent(q)
      modifies this`moments, this`actions, api
      ensures Stands(Idle(if r.Err? then Failed else Finalized))
      ensures old(moments) <= moments && old(actions) <= actions && (old(Sound()) ==> Sound())
      ensures r.Ok? ==> exists i, c :: |old(moments)| <= i < |moments| && moments[i].pc == Releasing(q.key, c)
      ensures Alone(q) ==> ReleaseEnds(q, old(api.Now()), api.objects, r)
    {
      hide Sound, AllDecent, Valid, Steps, Get, Look, PostEnds;
      OthersAct(q.others(4), Refreshing(q.key));
      var got := Fetch(q.key, q.fates(2), Refreshing(q.key));
      if got.Err? {
        Advance(Refreshing(q.key), Go(q.fates(2), 0), Idle(Failed));
        return Err(got.error);
      }
      var copy := WithoutFinalizer(got.value);
      Advance(Refreshing(q.key), Go(q.fates(2), 0), Releasing(q.key, copy));
      ghost var i, m := |moments| - 1, moments[|moments| - 1];
      OthersAct(q.others(5), Releasing(q.key, copy));
      r := TakeOff(q.key, copy, q.fates(3));
      assert moments[i] == m;
    }

    /** Child resources, then the manager watcher, then the collector client: at some moment the watcher
        is in and the clients are still as they were. */
    method Register(q: Request, copy: Copy) returns (r: Result<()>)
      requires Stands(Building(q.key, copy)) && AmongDecent(q)
      modifies this`moments, this`actions, api, managers, managers.made, clients, clients.made
      ensures Stands(Idle(if r.Err? then Failed else Registered(q.key)))
      ensures old(moments) <= moments && old(actions) <= actions && (old(Sound()) ==> Sound())
      ensures r.Ok? ==> exists i :: |old(moments)| <= i < |moments| && moments[i].pc == Clienting(q.key)
                                    && moments[i].watch == managers.content
                                    && moments[i].clients == old(clients.content.Keys)
      ensures fresh(managers.made - old(managers.made)) && fresh(clients.made - old(clients.made))
      ensures RegisterEnds(q, copy.obj.body.spec.managerUrl, old(Booked()), Booked(), r.Ok?)
      ensures Alone(q) ==> api.Now() == old(api.Now())
    {
      hide Sound, AllDecent, Valid, Steps, Adds, Slot;
      var build := q.fates(2);
      OthersAct(q.others(2), Building(q.key, copy));
      if !build.Deliver? {
        Advance(Building(q.key, copy), Go(build, 0), Idle(Failed));
        return Err(Unavailable);
      }
      Advance(Building(q.key, copy), Go(build, 0), Watching(q.key, copy));
      r := Enlist(q, copy);
    }

    /** Into both registries. */
    method Enlist(q: Request, copy: Copy) returns (r: Result<()>)
      requires Stands(Watching(q.key, copy)) && AmongDecent(q)
      modifies this`moments, this`actions, api, managers, managers.made, clients, clients.made
      ensures Stands(Idle(if r.Err? then Failed else Registered(q.key)))
      ensures old(moments) <= moments && old(actions) <= actions && (old(Sound()) ==> Sound())
      ensures r.Ok? ==> exists i :: |old(moments)| <= i < |moments| && moments[i].pc == Clienting(q.key)
                                    && moments[i].watch == managers.content
                                    && moments[i].clients == old(clients.content.Keys)
      ensures fresh(managers.made - old(managers.made)) && fresh(clients.made - old(clients.made))
      ensures r.Ok? <==> q.clientName.Some?
      ensures var b, b', h := old(Booked()), Booked(), Handler(q.key, q.stamp);
        if r.Err? then b' == b
        else
          && Adds(b.managers, b'.managers, copy.obj.body.spec.managerUrl, h)
          && b'.clients == b.clients[Slot(q.key) := h]
      ensures Alone(q) ==> api.Now() == old(api.Now())
    {
      hide Stands, Sound, AllDecent, Adds, Slot;
      OthersAct(q.others(3), Watching(q.key, copy));
      r := Watch(q, copy);
      if r.Ok? {
        ghost var i, m := |moments| - 1, moments[|moments| - 1];
        OthersAct(q.others(4), Clienting(q.key));
        AddClient(q.key, Handler(q.key, q.stamp));
        assert moments[i] == m;
      }
    }
  }

  lemma FetchIsGuided(s: Sys, k: Key, f: Fate)
    requires !f.Stale?
    ensures Guided(s, Begin(k, f))
  {
  }

  lemma SoundRunsHaveNoOrphans(run: seq<Sys>, actions: seq<Action>)
    requires Trace(run, actions)
    ensures AllGuided(run, actions) ==> forall s :: s in run ==> NoOrphanClients(s)
  {
    if AllGuided(run, actions) {
      forall s | s in run ensures NoOrphanClients(s) {
        var i :| 0 <= i < |run| && run[i] == s;
        NoOrphanClientsEver(run, actions, i);
      }
    }
  }
}
