/** One tick of a manager poller: the git pass and the secret pass over all registered handlers, in
    whatever order the handler map yields them (glideinmanager_client.go, glideinset_controller.go,
    pilotset_schemas.go). */
module PollPass {
  import opened Kube
  import opened Names
  import opened GlideinSets
  import opened ManagerRegistry
  import opened SharedSecret

  type Handlers = map<string, Handler>

  function SetOf(h: Handler): Key {
    SetKey(h.resource.namespace, h.resource.name)
  }

  function TokensOf(h: Handler): Key {
    TokensKey(h.resource)
  }

  // ---------- Passes in any order ----------

  /** What a whole pass does: each handler's object ends as `outcome` says, and nothing else changes. */
  ghost predicate PassEnds<T>(st: Objects<T>, st': Objects<T>, keys: map<string, Key>,
                              outcome: string -> Option<Object<T>>) {
    && (forall n :: n in keys ==> At(st', keys[n]) == outcome(n))
    && (forall k :: (forall n :: n in keys ==> keys[n] != k) ==> At(st', k) == At(st, k))
  }

  /** The pass half way: only the handlers outside `todo` have had their turn. */
  ghost predicate PassUnderWay<T(!new)>(before: Shot<T>, now: Shot<T>, keys: map<string, Key>,
                                        outcome: string -> Option<Object<T>>, todo: set<string>) {
    && (forall n :: n in keys && n in todo ==> SameAt(before, now, keys[n]))
    && (forall n :: n in keys && n !in todo ==> At(now.objects, keys[n]) == outcome(n))
    && (forall k :: (forall n :: n in keys ==> keys[n] != k) ==> At(now.objects, k) == At(before.objects, k))
  }

  ghost predicate Apart(keys: map<string, Key>) {
    forall m, n :: m in keys && n in keys && m != n ==> keys[m] != keys[n]
  }

  lemma PassTurn<T(!new)>(before: Shot<T>, now: Shot<T>, next: Shot<T>, keys: map<string, Key>,
                          outcome: string -> Option<Object<T>>, todo: set<string>, n: string)
    requires n in todo && n in keys && Apart(keys)
    requires PassUnderWay(before, now, keys, outcome, todo)
    requires At(next.objects, keys[n]) == outcome(n)
    requires forall k :: k != keys[n] ==> SameAt(now, next, k)
    ensures PassUnderWay(before, next, keys, outcome, todo - {n})
  {
    forall k | k != keys[n] ensures At(next.objects, k) == At(now.objects, k) {
      assert SameAt(now, next, k);
    }
    forall m | m in keys && m in todo - {n} ensures SameAt(before, next, keys[m]) {
      assert SameAt(now, next, keys[m]);
    }
  }

  /** Two passes from the same store with the same outcomes, in whatever order each went, end in the
      same store. */
  lemma OrderDoesNotMatter<T(!new)>(st: Objects<T>, a: Objects<T>, b: Objects<T>, keys: map<string, Key>,
                                    outcome: string -> Option<Object<T>>)
    requires PassEnds(st, a, keys, outcome) && PassEnds(st, b, keys, outcome)
    ensures a == b
  {
    forall k ensures At(a, k) == At(b, k) {
      if n :| n in keys && keys[n] == k {
      }
    }
    SameStore(a, b);
  }

  function SetKeys(handlers: Handlers): map<string, Key> {
    map n | n in handlers :: SetOf(handlers[n])
  }

  function TokensKeys(handlers: Handlers): map<string, Key> {
    map n | n in handlers :: TokensOf(handlers[n])
  }

  lemma SetsApart(handlers: Handlers)
    requires Keyed(handlers)
    ensures Apart(SetKeys(handlers))
  {
  }

  lemma TokensApart(handlers: Handlers)
    requires Keyed(handlers)
    ensures Apart(TokensKeys(handlers))
  {
    forall m, n | m in handlers && n in handlers && TokensOf(handlers[m]) == TokensOf(handlers[n]) ensures m == n {
      SameSuffix(handlers[m].resource.name, handlers[n].resource.name, TOKENS);
    }
  }

  // ---------- The git pass ----------

  /** A synced repository; `manifests` is what reading and decoding the manifest file gives. */
  datatype RepoUpdate = RepoUpdate(currentCommit: string, previousCommit: string, path: string,
                                   manifests: Option<seq<Manifest>>)

  /** The first entry for the namespace. */
  function FirstFor(manifests: seq<Manifest>, namespace: string): Option<Manifest> {
    if manifests == [] then None
    else if manifests[0].namespace == namespace then Some(manifests[0])
    else FirstFor(manifests[1..], namespace)
  }

  function Entry(u: RepoUpdate, namespace: string): Option<Manifest> {
    if u.manifests.None? then None else FirstFor(u.manifests.value, namespace)
  }

  lemma {:induction false} FirstForMeans(manifests: seq<Manifest>, namespace: string, i: nat)
    requires i < |manifests| && manifests[i].namespace == namespace
    requires forall j :: 0 <= j < i ==> manifests[j].namespace != namespace
    ensures FirstFor(manifests, namespace) == Some(manifests[i])
  {
    if i > 0 {
      FirstForMeans(manifests[1..], namespace, i - 1);
    }
  }

  lemma {:induction false} FirstForNone(manifests: seq<Manifest>, namespace: string)
    ensures FirstFor(manifests, namespace).None? <==>
      forall j :: 0 <= j < |manifests| ==> manifests[j].namespace != namespace
  {
    if manifests != [] {
      FirstForNone(manifests[1..], namespace);
      assert forall j :: 0 < j < |manifests| ==> manifests[j] == manifests[1..][j - 1];
    }
  }

  method ReadManifestForNamespace(u: RepoUpdate, namespace: string) returns (r: Result<Manifest>)
    ensures r == if Entry(u, namespace).Some? then Ok(Entry(u, namespace).value) else Err(Rejected)
  {
    if u.manifests.None? {
      return Err(Rejected);
    }
    var entries := u.manifests.value;
    for i := 0 to |entries|
      invariant forall j :: 0 <= j < i ==> entries[j].namespace != namespace
    {
      if entries[i].namespace == namespace {
        FirstForMeans(entries, namespace, i);
        return Ok(entries[i]);
      }
    }
    FirstForNone(entries, namespace);
    return Err(Rejected);
  }

  /** The entry as it is stored on a resource. */
  function Stamped(u: RepoUpdate, m: Manifest): Manifest {
    m.(repoPath := u.path, currentCommit := u.currentCommit, previousCommit := u.previousCommit)
  }

  function GitEdit(u: RepoUpdate, namespace: string, o: SetObject): Result<Option<SetObject>> {
    match Entry(u, namespace)
    case None => Err(Rejected)
    case Some(m) => Ok(Some(WithManifest(o, Stamped(u, m))))
  }

  /** The fate of a handler's calls in one pass. */
  datatype GitLuck = GitLuck(sync: Fault<SetBody>, get: Fault<SetBody>, put: Fault<SetBody>)

  const SMOOTH := GitLuck(Deliver, Deliver, Deliver)

  predicate InSync(u: RepoUpdate, o: SetObject) {
    o.body.manifest.Some? && o.body.manifest.value.currentCommit == u.currentCommit
  }

  function WriteManifest(u: RepoUpdate, namespace: string): Updater<SetBody> {
    o => GitEdit(u, namespace, o)
  }

  /** The update of a handler's object, once it is found to be behind. */
  function GitUpdating(u: RepoUpdate, h: Handler, l: GitLuck, s: Shot<SetBody>): Effect<SetBody> {
    Updating(s, SetOf(h), WriteManifest(u, h.resource.namespace), l.get, l.put)
  }

  /** A handler's object after its turn. */
  function GitOutcome(u: RepoUpdate, h: Handler, l: GitLuck, s: Shot<SetBody>): Option<SetObject> {
    var seen := Look(s, SetOf(h), l.sync);
    if seen.Err? || InSync(u, seen.value.obj) then At(s.objects, SetOf(h)) else GitUpdating(u, h, l, s).left
  }

  ghost function GitOutcomes(u: RepoUpdate, handlers: Handlers, luck: string -> GitLuck, s: Shot<SetBody>)
    : string -> Option<SetObject>
  {
    n => if n in handlers then GitOutcome(u, handlers[n], luck(n), s) else None
  }

  /** Does a handler's turn end with an error in the log? */
  predicate Troubled(u: RepoUpdate, h: Handler, l: GitLuck, s: Shot<SetBody>) {
    var seen, r := Look(s, SetOf(h), l.sync), GitUpdating(u, h, l, s).reply;
    seen.Err? || (!InSync(u, seen.value.obj) && r.Err? && r != Err(NotFound))
  }

  /** Two reads can mislead a turn on a resource that is behind: one that shows it at the commit, and
      one that says it is gone. */
  predicate GitMisled(u: RepoUpdate, h: Handler, l: GitLuck, s: Shot<SetBody>) {
    var k, seen := SetOf(h), Look(s, SetOf(h), l.sync);
    && k in s.objects && !InSync(u, s.objects[k])
    && seen.Ok? && (InSync(u, seen.value.obj) || Look(s, k, l.get) == Err(NotFound))
  }

  ghost predicate TroubledAt(u: RepoUpdate, s: Shot<SetBody>, handlers: Handlers, luck: string -> GitLuck, n: string) {
    n in handlers && Troubled(u, handlers[n], luck(n), s)
  }

  /** A resource that is at the commit, and that no old copy shows otherwise. */
  predicate AtCommit(u: RepoUpdate, h: Handler, l: GitLuck, s: Shot<SetBody>) {
    SetOf(h) in s.objects && InSync(u, s.objects[SetOf(h)]) && !Recalls(l.sync)
  }

  lemma SameGit(u: RepoUpdate, h: Handler, l: GitLuck, s: Shot<SetBody>, s': Shot<SetBody>)
    requires SameAt(s, s', SetOf(h))
    ensures GitOutcome(u, h, l, s) == GitOutcome(u, h, l, s')
    ensures Troubled(u, h, l, s) == Troubled(u, h, l, s')
    ensures AtCommit(u, h, l, s) == AtCommit(u, h, l, s')
  {
    SameAnswers(s, s', SetOf(h), WriteManifest(u, h.resource.namespace), l.sync, l.put);
    SameAnswers(s, s', SetOf(h), WriteManifest(u, h.resource.namespace), l.get, l.put);
  }

  /** One handler's turn: look at the commit stored on the resource, and bring it up to date. */
  method GitTurn(api: ApiServer<SetBody>, u: RepoUpdate, h: Handler, l: GitLuck) returns (logged: bool)
    requires api.Valid()
    modifies api
    ensures api.Valid()
    ensures logged <==> Troubled(u, h, l, old(api.Now()))
    ensures At(api.objects, SetOf(h)) == GitOutcome(u, h, l, old(api.Now()))
    ensures forall k :: k != SetOf(h) ==> SameAt(old(api.Now()), api.Now(), k)
    ensures AtCommit(u, h, l, old(api.Now())) ==> SameAt(old(api.Now()), api.Now(), SetOf(h))
  {
    hide Updating, Sane, SetOf;
    var got := api.Get(SetOf(h), l.sync);
    if got.Err? {
      return true;
    }
    if got.value.obj.body.manifest.Some? && got.value.obj.body.manifest.value.currentCommit == u.currentCommit {
      return false;
    }
    ghost var before := api.Now();
    var r := ApplyUpdate(api, SetOf(h), WriteManifest(u, h.resource.namespace), l.get, l.put);
    UpdateLeaves(before, api.Now(), SetOf(h), WriteManifest(u, h.resource.namespace), l.get, l.put);
    return r.Err? && r != Err(NotFound);
  }

  lemma UpdateLeaves<T(!new)>(s: Shot<T>, s': Shot<T>, k: Key, edit: Updater<T>, onGet: Fault<T>, onPut: Fault<T>)
    requires var e := Updating(s, k, edit, onGet, onPut);
      if e.wrote then s'.objects == Write(s.objects, k, e.left) else s' == s
    ensures At(s'.objects, k) == Updating(s, k, edit, onGet, onPut).left
  {
  }

  /** The git pass. Its end is a function of its start, whatever the order and whatever the reads show,
      and the log names the resources that had trouble. */
  method CheckForGitUpdates(api: ApiServer<SetBody>, handlers: Handlers, sync: Result<RepoUpdate>,
                            luck: string -> GitLuck)
    returns (logged: set<string>)
    requires api.Valid() && Keyed(handlers)
    modifies api
    ensures api.Valid()
    ensures sync.Err? ==> api.Now() == old(api.Now()) && logged == handlers.Keys
    ensures sync.Ok? ==> forall n :: n in logged <==> TroubledAt(sync.value, old(api.Now()), handlers, luck, n)
    ensures sync.Ok? ==>
      PassEnds(old(api.objects), api.objects, SetKeys(handlers),
               GitOutcomes(sync.value, handlers, luck, old(api.Now())))
    ensures sync.Ok? ==> forall n :: n in handlers && AtCommit(sync.value, handlers[n], luck(n), old(api.Now())) ==>
      SameAt(old(api.Now()), api.Now(), SetOf(handlers[n]))
  {
    if sync.Err? {
      return handlers.Keys;
    }
    var todo := handlers.Keys;
    logged := {};
    while todo != {}
      invariant api.Valid() && todo <= handlers.Keys
      invariant GitUnderWay(sync.value, old(api.Now()), api.Now(), handlers, luck, todo, logged)
      decreases todo
    {
      var n :| n in todo;
      logged := NextGit(api, sync.value, handlers, luck, n, old(api.Now()), todo, logged);
      todo := todo - {n};
    }
  }

  ghost predicate GitUnderWay(u: RepoUpdate, before: Shot<SetBody>, now: Shot<SetBody>, handlers: Handlers,
                              luck: string -> GitLuck, todo: set<string>, logged: set<string>) {
    && PassUnderWay(before, now, SetKeys(handlers), GitOutcomes(u, handlers, luck, before), todo)
    && (forall n :: n in logged <==> n !in todo && TroubledAt(u, before, handlers, luck, n))
    && (forall n :: n in handlers && n !in todo && AtCommit(u, handlers[n], luck(n), before) ==>
          SameAt(before, now, SetOf(handlers[n])))
  }

  method NextGit(api: ApiServer<SetBody>, u: RepoUpdate, handlers: Handlers, luck: string -> GitLuck, n: string,
                 ghost before: Shot<SetBody>, ghost todo: set<string>, known: set<string>)
    returns (logged: set<string>)
    requires api.Valid() && Keyed(handlers) && n in todo && n in handlers
    requires GitUnderWay(u, before, api.Now(), handlers, luck, todo, known)
    modifies api
    ensures api.Valid()
    ensures GitUnderWay(u, before, api.Now(), handlers, luck, todo - {n}, logged)
  {
    hide Troubled, GitOutcome, AtCommit, SetOf, SameAt, api.Valid;
    ghost var now := api.Now();
    assert SetKeys(handlers)[n] == SetOf(handlers[n]);
    SameGit(u, handlers[n], luck(n), before, now);
    var trouble := GitTurn(api, u, handlers[n], luck(n));
    SetsApart(handlers);
    PassTurn(before, now, api.Now(), SetKeys(handlers), GitOutcomes(u, handlers, luck, before), todo, n);
    StaysAtCommit(u, before, now, api.Now(), handlers, luck, todo, n);
    logged := if trouble then known + {n} else known;
  }

  lemma StaysAtCommit(u: RepoUpdate, before: Shot<SetBody>, now: Shot<SetBody>, next: Shot<SetBody>,
                      handlers: Handlers, luck: string -> GitLuck, todo: set<string>, n: string)
    requires n in todo && n in handlers && Apart(SetKeys(handlers)) && SameAt(before, now, SetOf(handlers[n]))
    requires forall m :: m in handlers && m !in todo && AtCommit(u, handlers[m], luck(m), before) ==>
      SameAt(before, now, SetOf(handlers[m]))
    requires forall k :: k != SetOf(handlers[n]) ==> SameAt(now, next, k)
    requires AtCommit(u, handlers[n], luck(n), before) ==> SameAt(now, next, SetOf(handlers[n]))
    ensures forall m :: m in handlers && m !in todo - {n} && AtCommit(u, handlers[m], luck(m), before) ==>
      SameAt(before, next, SetOf(handlers[m]))
  {
    hide AtCommit, SetOf;
    forall m | m in handlers && m !in todo - {n} && AtCommit(u, handlers[m], luck(m), before)
      ensures SameAt(before, next, SetOf(handlers[m]))
    {
      var keys := SetKeys(handlers);
      assert keys[m] == SetOf(handlers[m]) && keys[n] == SetOf(handlers[n]);
      assert SameAt(now, next, SetOf(handlers[m]));
    }
  }

  /** A turn leaves a resource alone, or writes the first entry for its namespace into it as it is now
      and touches nothing else. */
  lemma GitTurnIsAtomic(u: RepoUpdate, h: Handler, l: GitLuck, s: Shot<SetBody>)
    requires Sane(s)
    ensures var k := SetOf(h);
      || GitOutcome(u, h, l, s) == At(s.objects, k)
      || (k in s.objects && Entry(u, k.namespace).Some?
          && GitOutcome(u, h, l, s) == Some(WithManifest(s.objects[k], Stamped(u, Entry(u, k.namespace).value))))
  {
    UpdatingIsAtomic(s, SetOf(h), WriteManifest(u, h.resource.namespace), l.get, l.put);
  }

  /** `m` is what the repository says for the namespace: the commits and the path are those of the
      update, and the rest is from the first entry for the namespace. */
  ghost predicate Carries(u: RepoUpdate, namespace: string, m: Manifest) {
    && m.repoPath == u.path && m.currentCommit == u.currentCommit && m.previousCommit == u.previousCommit
    && u.manifests.Some?
    && exists i :: 0 <= i < |u.manifests.value|
         && u.manifests.value[i].namespace == namespace
         && (forall j :: 0 <= j < i ==> u.manifests.value[j].namespace != namespace)
         && m.namespace == namespace
         && m.secretName == u.manifests.value[i].secretName && m.secretDst == u.manifests.value[i].secretDst
         && m.config == u.manifests.value[i].config
  }

  lemma StampedCarries(u: RepoUpdate, namespace: string)
    requires Entry(u, namespace).Some?
    ensures Carries(u, namespace, Stamped(u, Entry(u, namespace).value))
  {
    var i := FirstIndex(u.manifests.value, namespace);
    FirstForMeans(u.manifests.value, namespace, i);
  }

  lemma FirstIndex(manifests: seq<Manifest>, namespace: string) returns (i: nat)
    requires FirstFor(manifests, namespace).Some?
    ensures i < |manifests| && manifests[i].namespace == namespace
    ensures forall j :: 0 <= j < i ==> manifests[j].namespace != namespace
  {
    i := 0;
    if manifests[0].namespace != namespace {
      var n := FirstIndex(manifests[1..], namespace);
      i := n + 1;
      assert forall j :: 0 < j < i ==> manifests[j] == manifests[1..][j - 1];
    }
  }

  /** `after` is `before` with another manifest. */
  predicate OnlyManifest(before: SetObject, after: SetObject) {
    && after.body.spec == before.body.spec && after.labels == before.labels && after.owner == before.owner
    && after.finalizers == before.finalizers && after.deleting == before.deleting
  }

  /** After its turn a resource has had trouble, has vanished, or is at the commit unless a read misled
      the turn; and if it was behind, it then carries the first entry for its namespace. */
  lemma GitTurnSyncs(u: RepoUpdate, h: Handler, l: GitLuck, s: Shot<SetBody>)
    requires Sane(s) && !Troubled(u, h, l, s) && GitOutcome(u, h, l, s).Some?
    ensures var k, after := SetOf(h), GitOutcome(u, h, l, s).value;
      && k in s.objects && OnlyManifest(s.objects[k], after)
      && (InSync(u, after) <==> !GitMisled(u, h, l, s))
      && (!GitMisled(u, h, l, s) && !InSync(u, s.objects[k]) ==>
            after.body.manifest.Some? && Carries(u, k.namespace, after.body.manifest.value))
      && (!GitMisled(u, h, l, s) && InSync(u, s.objects[k]) ==>
            || after == s.objects[k]
            || (after.body.manifest.Some? && Carries(u, k.namespace, after.body.manifest.value)))
  {
    UpdatingIsAtomic(s, SetOf(h), WriteManifest(u, h.resource.namespace), l.get, l.put);
    if Entry(u, h.resource.namespace).Some? {
      StampedCarries(u, h.resource.namespace);
    }
  }

  /** Exactly when a turn is quiet, for all reads: the resource is seen at the commit; or the update is
      told that it is gone, truly or not; or there is an entry and the update is accepted. */
  lemma QuietExactly(u: RepoUpdate, h: Handler, l: GitLuck, s: Shot<SetBody>)
    requires Sane(s)
    ensures var k := SetOf(h);
      var seen, got := Look(s, k, l.sync), Look(s, k, l.get);
      !Troubled(u, h, l, s) <==>
        && seen.Ok?
        && (|| (seen.value.obj.body.manifest.Some?
                && seen.value.obj.body.manifest.value.currentCommit == u.currentCommit)
            || got == Err(NotFound)
            || (got.Ok? && u.manifests.Some? && !l.put.Refuse?
                && (exists i :: 0 <= i < |u.manifests.value| && u.manifests.value[i].namespace == k.namespace)
                && (k !in s.objects || (s.versions[k] == got.value.version && !l.put.LoseReply?))))
  {
    var k := SetOf(h);
    var got := Look(s, k, l.get);
    if u.manifests.Some? {
      FirstForNone(u.manifests.value, h.resource.namespace);
    }
    if got.Ok? {
      assert (k, got.value) in s.past;
    }
  }

  /** With honest reads, exactly what is logged: a resource that is missing or cannot be read, and one
      that is behind but cannot be updated or has no entry. A served turn on one with an entry is quiet. */
  lemma TroubledExactly(u: RepoUpdate, h: Handler, l: GitLuck, s: Shot<SetBody>)
    requires Sane(s) && !l.sync.Stale? && !l.get.Stale?
    ensures var k := SetOf(h);
      Troubled(u, h, l, s) <==>
        || k !in s.objects || l.sync != Deliver
        || (!(s.objects[k].body.manifest.Some? && s.objects[k].body.manifest.value.currentCommit == u.currentCommit)
            && (l.get != Deliver || l.put.Refuse? || l.put.LoseReply? || u.manifests.None?
                || forall i :: 0 <= i < |u.manifests.value| ==> u.manifests.value[i].namespace != k.namespace))
  {
    if u.manifests.Some? {
      FirstForNone(u.manifests.value, h.resource.namespace);
    }
  }

  /** After the pass every registered resource has had trouble, has vanished, or is at the commit unless
      a read misled its turn; one that was behind carries the first entry for its namespace. */
  lemma GitPassSyncs(u: RepoUpdate, handlers: Handlers, luck: string -> GitLuck, s: Shot<SetBody>,
                     st': Objects<SetBody>, n: string)
    requires Sane(s) && PassEnds(s.objects, st', SetKeys(handlers), GitOutcomes(u, handlers, luck, s))
    requires n in handlers && !TroubledAt(u, s, handlers, luck, n) && SetOf(handlers[n]) in st'
    ensures var k := SetOf(handlers[n]);
      && k in s.objects && OnlyManifest(s.objects[k], st'[k])
      && (InSync(u, st'[k]) <==> !GitMisled(u, handlers[n], luck(n), s))
      && (!GitMisled(u, handlers[n], luck(n), s) && !InSync(u, s.objects[k]) ==>
            st'[k].body.manifest.Some? && Carries(u, k.namespace, st'[k].body.manifest.value))
  {
    hide Carries;
    assert SetKeys(handlers)[n] == SetOf(handlers[n]);
    GitTurnSyncs(u, handlers[n], luck(n), s);
  }

  /** A second smooth pass at the same commit changes nothing. */
  lemma GitPassSettles(u: RepoUpdate, handlers: Handlers, luck: string -> GitLuck, s: Shot<SetBody>,
                       mid: Shot<SetBody>, end: Objects<SetBody>)
    requires Sane(s) && Sane(mid) && forall n :: n in handlers ==> luck(n) == SMOOTH
    requires PassEnds(s.objects, mid.objects, SetKeys(handlers), GitOutcomes(u, handlers, luck, s))
    requires PassEnds(mid.objects, end, SetKeys(handlers), GitOutcomes(u, handlers, luck, mid))
    ensures end == mid.objects
  {
    var keys, outcome := SetKeys(handlers), GitOutcomes(u, handlers, luck, mid);
    forall n | n in keys ensures At(mid.objects, keys[n]) == outcome(n) {
      assert keys[n] == SetOf(handlers[n]);
      assert At(mid.objects, keys[n]) == GitOutcomes(u, handlers, luck, s)(n);
      SmoothTurnTwice(u, handlers[n], s, mid);
    }
    assert PassEnds(mid.objects, mid.objects, keys, outcome);
    OrderDoesNotMatter(mid.objects, end, mid.objects, keys, outcome);
  }

  lemma SmoothTurnTwice(u: RepoUpdate, h: Handler, s: Shot<SetBody>, mid: Shot<SetBody>)
    requires Sane(s) && Sane(mid) && At(mid.objects, SetOf(h)) == GitOutcome(u, h, SMOOTH, s)
    ensures GitOutcome(u, h, SMOOTH, mid) == At(mid.objects, SetOf(h))
  {
  }

  // ---------- The secret pass ----------

  /** A secret as the manager serves it. */
  datatype Upstream = Upstream(version: string, value: string)

  /** The manager's answers and the base64 decoder. */
  datatype Source = Source(fetch: string -> Result<Upstream>, decode: string -> Option<string>)

  datatype SecretLuck = SecretLuck(sync: Fault<SetBody>, state: Fault<Data>, get: Fault<Data>, put: Fault<Data>)

  const EASY := SecretLuck(Deliver, Deliver, Deliver, Deliver)

  /** A label holds at most this many characters, so versions are cut to it. */
  const MAX_LABEL_LENGTH := 63

  /** A secret to be placed: where, and what the manager served. */
  datatype Order = Order(dst: string, upstream: Upstream)

  /** What a handler's GlideinSet, as it is seen, asks of the manager, if it asks and is answered. */
  function OrderOf(src: Source, sets: Shot<SetBody>, h: Handler, l: SecretLuck): Option<Order> {
    var seen := Look(sets, SetOf(h), l.sync);
    if seen.Err? || seen.value.obj.body.manifest.None? then None
    else
      var m := seen.value.obj.body.manifest.value;
      if m.secretName == "" || m.secretDst == "" || src.fetch(m.secretName).Err? then None
      else Some(Order(m.secretDst, src.fetch(m.secretName).value))
  }

  /** Cutting a version that is too short to be cut panics. */
  predicate TooShort(o: Order) {
    |o.upstream.version| < MAX_LABEL_LENGTH
  }

  function Cut(o: Order): string {
    if TooShort(o) then o.upstream.version else o.upstream.version[..MAX_LABEL_LENGTH]
  }

  function SecretVersion(sec: Secret): string {
    if VERSION_LABEL in sec.labels then sec.labels[VERSION_LABEL] else ""
  }

  /** The write that is due on the tokens Secret, if one is: it is seen with another version, and the
      value decodes. */
  function Due(src: Source, l: SecretLuck, order: Order, s: Shot<Data>, k: Key): Option<SecretOp> {
    var seen, val := Look(s, k, l.state), src.decode(order.upstream.value);
    if seen.Err? || SecretVersion(seen.value.obj) == Cut(order) || val.None? then None
    else Some(Remote(order.dst, val.value, Cut(order)))
  }

  function WriteSecret(op: SecretOp): Updater<Data> {
    o => Ok(Some(Edit(o, op)))
  }

  function PlacePanics(s: Shot<Data>, k: Key, op: SecretOp, onGet: Fault<Data>): bool {
    var got := Look(s, k, onGet);
    got.Ok? && Panics(got.value.obj, op)
  }

  /** Would this handler's turn bring the operator down? */
  predicate Fatal(src: Source, l: SecretLuck, order: Order, s: Shot<Data>, k: Key) {
    var due := Due(src, l, order, s, k);
    TooShort(order) || (due.Some? && PlacePanics(s, k, due.value, l.get))
  }

  function SecretOutcome(src: Source, l: SecretLuck, order: Option<Order>, s: Shot<Data>, k: Key): Option<Secret> {
    if order.None? || TooShort(order.value) || Due(src, l, order.value, s, k).None? then At(s.objects, k)
    else Updating(s, k, WriteSecret(Due(src, l, order.value, s, k).value), l.get, l.put).left
  }

  ghost function SecretOutcomes(src: Source, sets: Shot<SetBody>, handlers: Handlers, luck: string -> SecretLuck,
                                s: Shot<Data>)
    : string -> Option<Secret>
  {
    n =>
      if n !in handlers then None
      else SecretOutcome(src, luck(n), OrderOf(src, sets, handlers[n], luck(n)), s, TokensOf(handlers[n]))
  }

  ghost predicate FatalAt(src: Source, sets: Shot<SetBody>, s: Shot<Data>, h: Handler, l: SecretLuck) {
    var order := OrderOf(src, sets, h, l);
    order.Some? && Fatal(src, l, order.value, s, TokensOf(h))
  }

  /** What the handler's GlideinSet asks the manager for, and what the manager serves. */
  method FetchOrder(sets: ApiServer<SetBody>, src: Source, h: Handler, l: SecretLuck) returns (order: Option<Order>)
    requires sets.Valid()
    ensures order == OrderOf(src, sets.Now(), h, l)
  {
    hide Look;
    var config := sets.Get(SetOf(h), l.sync);
    if config.Err? || config.value.obj.body.manifest.None? {
      return None;
    }
    var m := config.value.obj.body.manifest.value;
    if m.secretName == "" || m.secretDst == "" {
      return None;
    }
    var fetched := src.fetch(m.secretName);
    if fetched.Err? {
      return None;
    }
    return Some(Order(m.secretDst, fetched.value));
  }

  /** One handler's turn; `crashed` is a panic, which takes the whole operator down. */
  method SecretTurn(sets: ApiServer<SetBody>, secrets: ApiServer<Data>, src: Source, h: Handler, l: SecretLuck)
    returns (crashed: bool)
    requires sets.Valid() && secrets.Valid()
    modifies secrets
    ensures secrets.Valid()
    ensures crashed <==> FatalAt(src, sets.Now(), old(secrets.Now()), h, l)
    ensures crashed ==> secrets.Now() == old(secrets.Now())
    ensures !crashed ==>
      At(secrets.objects, TokensOf(h))
      == SecretOutcome(src, l, OrderOf(src, sets.Now(), h, l), old(secrets.Now()), TokensOf(h))
    ensures forall k :: k != TokensOf(h) ==> SameAt(old(secrets.Now()), secrets.Now(), k)
  {
    hide TokensOf, OrderOf, Due, Fatal, Updating, Sane;
    crashed := false;
    var order := FetchOrder(sets, src, h, l);
    if order.Some? {
      crashed := CarryOut(secrets, TokensOf(h), src, order.value, l);
    }
  }

  /** Compare versions, and place the secret if it is another one. */
  method CarryOut(secrets: ApiServer<Data>, k: Key, src: Source, order: Order, l: SecretLuck) returns (crashed: bool)
    requires secrets.Valid()
    modifies secrets
    ensures secrets.Valid()
    ensures crashed <==> Fatal(src, l, order, old(secrets.Now()), k)
    ensures crashed ==> secrets.Now() == old(secrets.Now())
    ensures !crashed ==> At(secrets.objects, k) == SecretOutcome(src, l, Some(order), old(secrets.Now()), k)
    ensures forall j :: j != k ==> SameAt(old(secrets.Now()), secrets.Now(), j)
  {
    hide Edit, Panics, Sane, Look, Updating, PlacePanics;
    if |order.upstream.version| < MAX_LABEL_LENGTH {
      return true;
    }
    var version := order.upstream.version[..MAX_LABEL_LENGTH];
    var state := secrets.Get(k, l.state);
    if state.Err? || SecretVersion(state.value.obj) == version {
      return false;
    }
    crashed := PlaceSecret(secrets, k, src.decode, order.dst, order.upstream.value, version, l);
  }

  /** Fetch, decode, edit in place and post one remote secret. */
  method PlaceSecret(secrets: ApiServer<Data>, k: Key, decode: string -> Option<string>, dst: string,
                     encoded: string, version: string, l: SecretLuck)
    returns (crashed: bool)
    requires secrets.Valid()
    modifies secrets
    ensures secrets.Valid()
    ensures forall j :: j != k ==> SameAt(old(secrets.Now()), secrets.Now(), j)
    ensures crashed || decode(encoded).None? ==> secrets.Now() == old(secrets.Now())
    ensures crashed <==> decode(encoded).Some?
                         && PlacePanics(old(secrets.Now()), k, Remote(dst, decode(encoded).value, version), l.get)
    ensures !crashed && decode(encoded).Some? ==>
      var op := Remote(dst, decode(encoded).value, version);
      At(secrets.objects, k) == Updating(old(secrets.Now()), k, WriteSecret(op), l.get, l.put).left
  {
    hide Edit, Panics, Sane, Look;
    var got := secrets.Get(k, l.get);
    if got.Err? {
      return false;
    }
    var sec := got.value.obj;
    var buffer := new SecretBuffer(sec);
    var r, panicked := buffer.UpdateRemoteValue(sec, dst, encoded, version, decode);
    if !panicked && r.Ok? {
      var _ := secrets.Update(k, Held(got.value.version, buffer.Stored(sec)), l.put);
    }
    return panicked;
  }

  ghost predicate Down(src: Source, sets: Shot<SetBody>, s: Shot<Data>, handlers: Handlers,
                       luck: string -> SecretLuck, n: string) {
    n in handlers && FatalAt(src, sets, s, handlers[n], luck(n))
  }

  /** The secret pass. It goes down exactly if some handler is fatal, and otherwise its end is a
      function of its start, whatever the order and whatever the reads show. */
  method CheckForSecretUpdates(sets: ApiServer<SetBody>, secrets: ApiServer<Data>, src: Source, handlers: Handlers,
                               luck: string -> SecretLuck)
    returns (crashed: bool)
    requires sets.Valid() && secrets.Valid() && Keyed(handlers)
    modifies secrets
    ensures secrets.Valid()
    ensures crashed <==> exists n :: Down(src, sets.Now(), old(secrets.Now()), handlers, luck, n)
    ensures !crashed ==> PassEnds(old(secrets.objects), secrets.objects, TokensKeys(handlers),
                                  SecretOutcomes(src, sets.Now(), handlers, luck, old(secrets.Now())))
  {
    crashed := false;
    var todo := handlers.Keys;
    while todo != {}
      invariant secrets.Valid() && todo <= handlers.Keys
      invariant SecretsUnderWay(src, sets.Now(), old(secrets.Now()), secrets.Now(), handlers, luck, todo)
      decreases todo
    {
      var n :| n in todo;
      crashed := NextSecret(sets, secrets, src, handlers, luck, n, old(secrets.Now()), todo);
      if crashed {
        return;
      }
      todo := todo - {n};
    }
  }

  ghost predicate SecretsUnderWay(src: Source, sets: Shot<SetBody>, before: Shot<Data>, now: Shot<Data>,
                                  handlers: Handlers, luck: string -> SecretLuck, todo: set<string>) {
    && PassUnderWay(before, now, TokensKeys(handlers), SecretOutcomes(src, sets, handlers, luck, before), todo)
    && forall n :: n !in todo ==> !Down(src, sets, before, handlers, luck, n)
  }

  lemma SameSecret(src: Source, l: SecretLuck, order: Order, s: Shot<Data>, s': Shot<Data>, k: Key)
    requires SameAt(s, s', k)
    ensures Fatal(src, l, order, s, k) == Fatal(src, l, order, s', k)
    ensures SecretOutcome(src, l, Some(order), s, k) == SecretOutcome(src, l, Some(order), s', k)
    ensures SecretOutcome(src, l, None, s, k) == SecretOutcome(src, l, None, s', k)
  {
    var due := Due(src, l, order, s, k);
    SameAnswers(s, s', k, WriteSecret(if due.Some? then due.value else Refresh("")), l.state, l.put);
    SameAnswers(s, s', k, WriteSecret(if due.Some? then due.value else Refresh("")), l.get, l.put);
  }

  method NextSecret(sets: ApiServer<SetBody>, secrets: ApiServer<Data>, src: Source, handlers: Handlers,
                    luck: string -> SecretLuck, n: string, ghost before: Shot<Data>, ghost todo: set<string>)
    returns (crashed: bool)
    requires sets.Valid() && secrets.Valid() && Keyed(handlers) && n in todo && n in handlers
    requires SecretsUnderWay(src, sets.Now(), before, secrets.Now(), handlers, luck, todo)
    modifies secrets
    ensures secrets.Valid()
    ensures crashed <==> Down(src, sets.Now(), before, handlers, luck, n)
    ensures !crashed ==> SecretsUnderWay(src, sets.Now(), before, secrets.Now(), handlers, luck, todo - {n})
  {
    hide Fatal, SecretOutcome, OrderOf, TokensOf, SameAt, sets.Valid, secrets.Valid;
    ghost var now, order := secrets.Now(), OrderOf(src, sets.Now(), handlers[n], luck(n));
    assert TokensKeys(handlers)[n] == TokensOf(handlers[n]);
    SameSecret(src, luck(n), if order.Some? then order.value else Order("", Upstream("", "")), before, now,
               TokensOf(handlers[n]));
    crashed := SecretTurn(sets, secrets, src, handlers[n], luck(n));
    if !crashed {
      TokensApart(handlers);
      PassTurn(before, now, secrets.Now(), TokensKeys(handlers),
               SecretOutcomes(src, sets.Now(), handlers, luck, before), todo, n);
    }
  }

  /** As the handler's GlideinSet is seen, it asks in its manifest `m` for a secret that the manager
      serves as `up`. */
  predicate Serves(src: Source, sets: Shot<SetBody>, h: Handler, l: SecretLuck, m: Manifest, up: Upstream) {
    var seen := Look(sets, SetOf(h), l.sync);
    && seen.Ok? && seen.value.obj.body.manifest == Some(m)
    && m.secretName != "" && m.secretDst != "" && src.fetch(m.secretName) == Ok(up)
  }

  /** The Secret is fetched as it is now, and no call on it fails. */
  predicate Reaches(s: Shot<Data>, k: Key, l: SecretLuck) {
    k in s.objects && k in s.versions && Look(s, k, l.get) == Ok(Held(s.versions[k], s.objects[k])) && !l.put.Refuse?
  }

  /** A pass changes a handler's tokens Secret if and only if the manager serves a secret for it, the
      Secret is seen with another label than the first 63 characters of the version, the value decodes,
      the update reaches the Secret, and there is something to change. Then those are the label. */
  lemma SecretChangesExactly(src: Source, sets: Shot<SetBody>, handlers: Handlers, luck: string -> SecretLuck,
                             s: Shot<Data>, st': Objects<Data>, n: string)
    requires Sane(s) && PassEnds(s.objects, st', TokensKeys(handlers), SecretOutcomes(src, sets, handlers, luck, s))
    requires n in handlers
    ensures var h, k, l := handlers[n], TokensOf(handlers[n]), luck(n);
      At(st', k) != At(s.objects, k) <==>
        exists m, up :: Serves(src, sets, h, l, m, up) && Placeable(src, s, k, l, m, up)
    ensures var h, k, l := handlers[n], TokensOf(handlers[n]), luck(n);
      forall m, up :: Serves(src, sets, h, l, m, up) && At(st', k) != At(s.objects, k) ==>
        && |up.version| >= 63 && k in s.objects && k in st' && src.decode(up.value).Some?
        && Find(st'[k].labels, "gmos.chtc.wisc.edu/secret-version") == Some(up.version[..63])
        && st'[k] == Edit(s.objects[k], Remote(m.secretDst, src.decode(up.value).value, up.version[..63]))
  {
    var h, k, l := handlers[n], TokensOf(handlers[n]), luck(n);
    assert TokensKeys(handlers)[n] == k;
    assert At(st', k) == SecretOutcome(src, l, OrderOf(src, sets, h, l), s, k);
    var order := OrderOf(src, sets, h, l);
    if order.Some? {
      var m := Look(sets, SetOf(h), l.sync).value.obj.body.manifest.value;
      assert Serves(src, sets, h, l, m, order.value.upstream);
      OutcomeExactly(src, l, m, order.value.upstream, s, k);
    }
  }

  predicate Placeable(src: Source, s: Shot<Data>, k: Key, l: SecretLuck, m: Manifest, up: Upstream) {
    var seen, val := Look(s, k, l.state), src.decode(up.value);
    && |up.version| >= 63
    && seen.Ok? && SecretVersion(seen.value.obj) != up.version[..63] && val.Some?
    && Reaches(s, k, l) && Edit(s.objects[k], Remote(m.secretDst, val.value, up.version[..63])) != s.objects[k]
  }

  lemma OutcomeExactly(src: Source, l: SecretLuck, m: Manifest, up: Upstream, s: Shot<Data>, k: Key)
    requires Sane(s)
    ensures var after := SecretOutcome(src, l, Some(Order(m.secretDst, up)), s, k);
      && (after != At(s.objects, k) <==> Placeable(src, s, k, l, m, up))
      && (after != At(s.objects, k) ==>
            && |up.version| >= 63 && k in s.objects && src.decode(up.value).Some?
            && after == Some(Edit(s.objects[k], Remote(m.secretDst, src.decode(up.value).value, up.version[..63])))
            && Find(after.value.labels, "gmos.chtc.wisc.edu/secret-version") == Some(up.version[..63]))
  {
    var order := Order(m.secretDst, up);
    var due := Due(src, l, order, s, k);
    if due.Some? && !TooShort(order) {
      UpdatingIsAtomic(s, k, WriteSecret(due.value), l.get, l.put);
      PostsExactly(s, k, due.value, l);
      if k in s.objects {
        EditKeepsRest(s.objects[k], due.value);
      }
    }
  }

  /** A Secret that is seen with the first 63 characters of the version as its label is left alone. */
  lemma SameLabelIsLeftAlone(src: Source, l: SecretLuck, order: Order, s: Shot<Data>, k: Key)
    requires |order.upstream.version| >= 63
    requires var seen := Look(s, k, l.state);
      seen.Ok? && Find(seen.value.obj.labels, "gmos.chtc.wisc.edu/secret-version") == Some(order.upstream.version[..63])
    ensures SecretOutcome(src, l, Some(order), s, k) == At(s.objects, k) && !Fatal(src, l, order, s, k)
  {
  }

  /** A handler brings the operator down if and only if it is served a secret whose version has fewer
      than 63 characters, or one that is due on a Secret that is fetched without any data. */
  lemma FatalExactly(src: Source, sets: Shot<SetBody>, s: Shot<Data>, h: Handler, l: SecretLuck)
    ensures FatalAt(src, sets, s, h, l) <==>
      exists m, up :: Serves(src, sets, h, l, m, up) && (|up.version| < 63 || MeetsNilMap(src, s, TokensOf(h), l, up))
  {
    var order := OrderOf(src, sets, h, l);
    if order.Some? {
      var m := Look(sets, SetOf(h), l.sync).value.obj.body.manifest.value;
      assert Serves(src, sets, h, l, m, order.value.upstream);
    }
  }

  predicate MeetsNilMap(src: Source, s: Shot<Data>, k: Key, l: SecretLuck, up: Upstream) {
    var seen, got := Look(s, k, l.state), Look(s, k, l.get);
    && |up.version| >= 63 && seen.Ok? && SecretVersion(seen.value.obj) != up.version[..63]
    && src.decode(up.value).Some? && got.Ok? && got.value.obj.body == map[]
  }

  lemma PostsExactly(s: Shot<Data>, k: Key, op: SecretOp, l: SecretLuck)
    requires Sane(s)
    ensures Updating(s, k, WriteSecret(op), l.get, l.put).wrote <==> Reaches(s, k, l)
  {
    hide Edit;
    var got := Look(s, k, l.get);
    if got.Ok? {
      EditKeepsRest(got.value.obj, op);
      assert (k, got.value) in s.past;
    }
  }

  /** After a smooth turn that was not fatal, the label is the manager's version, provided the value
      decodes. The value itself is in place at its destination exactly if the version was new and the
      destination is not the placeholder, or if it was there before: a destination that changes under
      an unchanged version is passed over. */
  lemma SecretIsPlacedExactly(src: Source, order: Order, s: Shot<Data>, k: Key)
    requires order.dst != "" && src.decode(order.upstream.value).Some?
    requires Sane(s) && k in s.objects && !Fatal(src, EASY, order, s, k)
    ensures |order.upstream.version| >= 63
    ensures var tag, version := "gmos.chtc.wisc.edu/secret-version", order.upstream.version[..63];
      var sec, after := s.objects[k], SecretOutcome(src, EASY, Some(order), s, k);
      var base, val := Basename(order.dst), src.decode(order.upstream.value);
      && after.Some?
      && Find(after.value.labels, tag) == Some(version)
      && (Find(after.value.body, base) == val <==>
            if Find(sec.labels, tag) == Some(version) then Find(sec.body, base) == val else base != "sample.cfg")
  {
    var version := order.upstream.version[..63];
    var op := Remote(order.dst, src.decode(order.upstream.value).value, version);
    assert version != "" by {
      assert |version| == 63;
    }
    PostsExactly(s, k, op, EASY);
    UpdatingIsAtomic(s, k, WriteSecret(op), Deliver, Deliver);
    EditKeepsRest(s.objects[k], op);
    EditLeaves(s.objects[k], op, Basename(order.dst));
  }
}
