/** The writers of one GlideinSet: the collection reconciler (spec), the git poller (remote manifest),
    the GlideinSet reconciler (finalizer), and a user's delete. */
module SharedGlideinSet {
  import opened Kube
  import opened GlideinSets
  import opened SharedObject

  datatype SetOp = PostSpec(spec: SetSpec) | PostManifest(manifest: Manifest) | AddFinalizer | RemoveFinalizer

  function Edit(o: SetObject, op: SetOp): SetObject {
    match op
    case PostSpec(s) => WithSpec(o, s)
    case PostManifest(m) => WithManifest(o, m)
    case AddFinalizer => o.(finalizers := o.finalizers + {FINALIZER})
    case RemoveFinalizer => o.(finalizers := o.finalizers - {FINALIZER})
  }

  const RULES: Rules<SetBody, SetOp> := Rules((o, op) => Edit(o, op), (o, op) => false)

  type SetLog = seq<Entry<SetBody, SetOp>>

  // Each field's last accepted write, read off the log; a birth writes them all.

  function LastSpec(log: SetLog): Option<SetSpec> {
    if log == [] then None
    else match log[|log| - 1]
      case Posted(PostSpec(s)) => Some(s)
      case Born(o) => Some(o.body.spec)
      case _ => LastSpec(log[..|log| - 1])
  }

  function LastManifest(log: SetLog): Option<Manifest> {
    if log == [] then None
    else match log[|log| - 1]
      case Posted(PostManifest(m)) => Some(m)
      case Born(o) => o.body.manifest
      case _ => LastManifest(log[..|log| - 1])
  }

  predicate LastMark(log: SetLog) {
    if log == [] then false
    else match log[|log| - 1]
      case Posted(AddFinalizer) => true
      case Posted(RemoveFinalizer) => false
      case Born(o) => FINALIZER in o.finalizers
      case _ => LastMark(log[..|log| - 1])
  }

  function LastBirth(log: SetLog): Option<SetObject> {
    if log == [] then None
    else match log[|log| - 1]
      case Born(o) => Some(o)
      case _ => LastBirth(log[..|log| - 1])
  }

  predicate DeletedSinceBirth(log: SetLog) {
    if log == [] then false
    else match log[|log| - 1]
      case Born(o) => o.deleting
      case Deleted => true
      case _ => DeletedSinceBirth(log[..|log| - 1])
  }

  /** What the log says about an object, field by field. */
  ghost predicate Told(log: SetLog, o: SetObject) {
    && LastSpec(log) == Some(o.body.spec)
    && LastManifest(log) == o.body.manifest
    && (LastMark(log) <==> FINALIZER in o.finalizers)
    && (DeletedSinceBirth(log) <==> o.deleting)
    && LastBirth(log).Some? && LastBirth(log).value.labels == o.labels && LastBirth(log).value.owner == o.owner
    && LastBirth(log).value.finalizers - {FINALIZER} == o.finalizers - {FINALIZER}
  }

  lemma {:induction false} ReplayTells(log: SetLog)
    ensures Replay(RULES, log).Some? ==> Told(log, Replay(RULES, log).value)
  {
    if log != [] {
      ReplayTells(log[..|log| - 1]);
    }
  }

  /** No lost updates: in every interleaving, with fetches possibly stale, the spec is the one last
      accepted, so is the remote manifest, so is the finalizer, and the rest is as it was created. */
  lemma NoLostUpdates(actions: seq<Action<SetBody, SetOp>>)
    ensures var w := Run(RULES, Start(), actions);
      w.current.Some? ==> Told(w.log, w.current.value.obj)
  {
    InterleavingsAreAtomic(RULES, actions);
    ReplayTells(Run(RULES, Start(), actions).log);
  }

  /** One accepted write moves the one field its writer owns; a refused one moves none. */
  lemma WritersKeepToTheirField(w: World<SetBody, SetOp>, i: nat, op: SetOp)
    requires Inv(RULES, w) && w.current.Some?
    ensures var w' := Step(RULES, w, Post(i, op));
      w'.current.Some? ==>
        var a, b := w.current.value.obj, w'.current.value.obj;
        && (a.body.spec != b.body.spec ==> op.PostSpec? && b.body.spec == op.spec)
        && (a.body.manifest != b.body.manifest ==> op.PostManifest? && b.body.manifest == Some(op.manifest))
        && (a.finalizers != b.finalizers ==> op.AddFinalizer? || op.RemoveFinalizer?)
        && a.labels == b.labels && a.owner == b.owner && a.deleting == b.deleting
  {
    if i in w.desk && Accepted(RULES, w, w.desk[i], op) {
      var h := w.desk[i];
      assert w.log[..|w.log|] == w.log;
      assert h.obj == w.current.value.obj;
    }
  }
}
